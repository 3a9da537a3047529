/**
 * The older session registry of cmd/sessions.go: the same play-state
 * bookkeeping as the pkg/plex registry, keyed by session key, holding the
 * user and media of each session, plus a plays counter that fires when a
 * record starts playing for the first time.
 *
 * The plays counter is modelled as the log of its increments, one label
 * tuple per increment. Each locked method is one atomic step; time is an
 * explicit `now` in whole seconds, > 0.
 */
module CmdSessions {
  import opened Playback

  datatype Session = Session(
    user: User,
    media: Metadata,
    state: SessionState,
    lastUpdate: int,
    playStarted: int,
    prevPlayedTime: int)

  /** The zero value a missing map entry reads as. */
  const ZeroSession := Session(User("", ""), ZeroMetadata, "", 0, 0, 0)

  function Lookup(m: map<string, Session>, id: string): Session
  {
    if id in m then m[id] else ZeroSession
  }

  /** The labels of one increment of the plays counter. */
  datatype PlayLabels = PlayLabels(server: string, librarySection: string, mediaType: string,
                                   title: string, season: string, episodeTitle: string, user: string)

  /** One play-seconds sample: its labels and its value. */
  datatype PlaySeconds = PlaySeconds(server: string, librarySection: string, mediaType: string,
                                     title: string, season: string, episodeTitle: string, user: string,
                                     session: string, seconds: int)

  /** The update records a new play: it starts playing a record that never played, with user and media supplied. */
  predicate FirstPlay(ss: Session, newState: SessionState, user: Option<User>, media: Option<Metadata>)
  {
    newState == StatePlaying && ss.playStarted == 0 && user.Some? && media.Some?
  }

  /** The counter labels of a play: the supplied media's titles and the supplied user. */
  function PlayOf(serverName: string, user: User, media: Metadata): (r: PlayLabels)
    ensures r.server == serverName && r.user == user.title && r.librarySection == media.librarySectionTitle
    ensures (r.title, r.season, r.episodeTitle) == Labels(media) && r.mediaType == media.mediaType
  {
    var (title, season, episode) := Labels(media);
    PlayLabels(serverName, media.librarySectionTitle, media.mediaType, title, season, episode, user.title)
  }

  /** The record after one update at `now`. */
  function Transition(ss: Session, newState: SessionState, user: Option<User>, media: Option<Metadata>, now: int): (r: Session)
    ensures r.state == newState && r.lastUpdate == now
    ensures r.user == (if user.Some? then user.value else ss.user)
    ensures r.media == (if media.Some? then media.value else ss.media)
    // the play time reported at the instant of the update is continuous across it
    ensures TotalPlayTime(r.prevPlayedTime, r.state, r.playStarted, now)
            == TotalPlayTime(ss.prevPlayedTime, ss.state, ss.playStarted, now)
    // entering playing stamps the start; otherwise it is kept
    ensures ss.state != StatePlaying && newState == StatePlaying ==> r.playStarted == now
    ensures !(ss.state != StatePlaying && newState == StatePlaying) ==> r.playStarted == ss.playStarted
    // leaving playing adds the open interval to the play time; otherwise it is kept
    ensures ss.state == StatePlaying && newState != StatePlaying ==> r.prevPlayedTime == ss.prevPlayedTime + (now - ss.playStarted)
    ensures !(ss.state == StatePlaying && newState != StatePlaying) ==> r.prevPlayedTime == ss.prevPlayedTime
    // once stamped, the start of play is never cleared
    ensures now > 0 && ss.playStarted != 0 ==> r.playStarted != 0
    ensures now > 0 && newState == StatePlaying && (ss.state == StatePlaying ==> ss.playStarted > 0) ==> r.playStarted > 0
  {
    var leaves := ss.state == StatePlaying && newState != StatePlaying;
    var enters := ss.state != StatePlaying && newState == StatePlaying;
    Session(
      if user.Some? then user.value else ss.user,
      if media.Some? then media.value else ss.media,
      newState,
      now,
      if enters then now else ss.playStarted,
      if leaves then ss.prevPlayedTime + (now - ss.playStarted) else ss.prevPlayedTime)
  }

  /** Invariant of every record: times are ordered, totals non-negative, playing records stamped. */
  predicate WellFormed(m: map<string, Session>)
  {
    forall k :: k in m ==>
      && 0 <= m[k].playStarted <= m[k].lastUpdate
      && m[k].prevPlayedTime >= 0
      && (m[k].state == StatePlaying ==> m[k].playStarted > 0)
  }

  /** `now` is a real clock reading no earlier than any update already applied. */
  predicate ClockAfter(m: map<string, Session>, now: int)
  {
    now > 0 && forall k :: k in m ==> m[k].lastUpdate <= now
  }

  lemma TransitionKeepsWellFormed(m: map<string, Session>, id: string, newState: SessionState,
                                  user: Option<User>, media: Option<Metadata>, now: int)
    requires WellFormed(m) && ClockAfter(m, now)
    ensures var m' := m[id := Transition(Lookup(m, id), newState, user, media, now)];
            WellFormed(m') && ClockAfter(m', now)
  {
  }

  // ---------------------------------------------------------------------
  // First plays along a sequence of updates of one record
  // ---------------------------------------------------------------------

  datatype Event = Event(state: SessionState, user: Option<User>, media: Option<Metadata>, at: int)

  /** The number of plays recorded by a sequence of updates of one record. */
  function PlaysRecorded(ss: Session, events: seq<Event>): nat
    decreases events
  {
    if events == [] then 0
    else
      var e := events[0];
      (if FirstPlay(ss, e.state, e.user, e.media) then 1 else 0)
      + PlaysRecorded(Transition(ss, e.state, e.user, e.media, e.at), events[1..])
  }

  predicate RealClock(events: seq<Event>)
  {
    forall i :: 0 <= i < |events| ==> events[i].at > 0
  }

  /** A record that has already played never counts again. */
  lemma {:induction false} PlayedRecordsCountNothing(ss: Session, events: seq<Event>)
    requires RealClock(events) && ss.playStarted != 0
    ensures PlaysRecorded(ss, events) == 0
    decreases events
  {
    if events != [] {
      var e := events[0];
      RealClockTail(events);
      PlayedRecordsCountNothing(Transition(ss, e.state, e.user, e.media, e.at), events[1..]);
    }
  }

  lemma RealClockTail(events: seq<Event>)
    requires events != [] && RealClock(events)
    ensures events[0].at > 0 && RealClock(events[1..])
  {
    forall i | 0 <= i < |events[1..]| ensures events[1..][i].at > 0 {
      assert events[1..][i] == events[i + 1];
    }
  }

  /** The plays counter fires at most once per record, whatever updates it receives. */
  lemma {:induction false} PlayCountedAtMostOnce(ss: Session, events: seq<Event>)
    requires RealClock(events)
    requires ss.state == StatePlaying ==> ss.playStarted > 0
    ensures PlaysRecorded(ss, events) <= 1
    decreases events
  {
    if events != [] {
      var e := events[0];
      var next := Transition(ss, e.state, e.user, e.media, e.at);
      RealClockTail(events);
      if FirstPlay(ss, e.state, e.user, e.media) {
        PlayedRecordsCountNothing(next, events[1..]);
      } else {
        PlayCountedAtMostOnce(next, events[1..]);
      }
    }
  }

  /** A fresh record counts exactly one play once it starts playing with user and media known. */
  lemma FreshRecordCountsOnce(u: User, m: Metadata, t1: int, t2: int, t3: int)
    requires 0 < t1 && 0 < t2 && 0 < t3
    ensures PlaysRecorded(ZeroSession, [Event(StatePlaying, Some(u), Some(m), t1), Event(StatePaused, None, None, t2),
                                        Event(StatePlaying, Some(u), Some(m), t3)]) == 1
  {
    var events := [Event(StatePlaying, Some(u), Some(m), t1), Event(StatePaused, None, None, t2),
                   Event(StatePlaying, Some(u), Some(m), t3)];
    var s1 := Transition(ZeroSession, StatePlaying, Some(u), Some(m), t1);
    PlayedRecordsCountNothing(s1, events[1..]);
  }

  // ---------------------------------------------------------------------
  // Pruning
  // ---------------------------------------------------------------------

  /** The records kept by a prune sweep at `now`. */
  function Pruned(m: map<string, Session>, now: int): (r: map<string, Session>)
    ensures forall k :: k in r <==> k in m && !Stale(m[k].state, m[k].lastUpdate, now)
    ensures forall k :: k in r ==> r[k] == m[k]
  {
    map k | k in m && !Stale(m[k].state, m[k].lastUpdate, now) :: m[k]
  }

  /** The play-seconds sample of one record at `now`. */
  function SampleOf(serverName: string, id: string, ss: Session, now: int): (r: PlaySeconds)
    ensures r.session == id && r.server == serverName && r.user == ss.user.title
    ensures r.librarySection == ss.media.librarySectionTitle && r.mediaType == ss.media.mediaType
    ensures (r.title, r.season, r.episodeTitle) == Labels(ss.media)
    ensures r.seconds == TotalPlayTime(ss.prevPlayedTime, ss.state, ss.playStarted, now)
    ensures 0 <= ss.playStarted <= now && ss.prevPlayedTime >= 0 ==> r.seconds >= 0
  {
    var (title, season, episode) := Labels(ss.media);
    PlaySeconds(serverName, ss.media.librarySectionTitle, ss.media.mediaType, title, season, episode,
                ss.user.title, id, TotalPlayTime(ss.prevPlayedTime, ss.state, ss.playStarted, now))
  }

  /** The registry object; accesses are serialised by the source's mutex. */
  class Sessions {
    var sessions: map<string, Session>
    /** The increments of the plays counter, in order. */
    var plays: seq<PlayLabels>
    const serverName: string

    ghost predicate Valid()
      reads this
    {
      WellFormed(sessions)
    }

    constructor (serverName: string)
      ensures Valid() && sessions == map[] && plays == [] && this.serverName == serverName
    {
      sessions := map[];
      plays := [];
      this.serverName := serverName;
    }

    /** Applies one update to the record of `sessionID`, counting a play when it is the record's first. */
    method Update(sessionID: string, newState: SessionState, user: Option<User>, media: Option<Metadata>, now: int)
      requires Valid() && ClockAfter(sessions, now)
      modifies this
      ensures Valid() && ClockAfter(sessions, now)
      ensures sessions == old(sessions)[sessionID := Transition(Lookup(old(sessions), sessionID), newState, user, media, now)]
      ensures var ss := Lookup(old(sessions), sessionID);
              plays == old(plays) + (if FirstPlay(ss, newState, user, media) then [PlayOf(serverName, user.value, media.value)] else [])
    {
      var ss := Lookup(sessions, sessionID);
      ghost var was := ss;
      if newState == StatePlaying && ss.playStarted == 0 && user.Some? && media.Some? {
        var (title, season, episode) := Labels(media.value);
        plays := plays + [PlayLabels(serverName, media.value.librarySectionTitle, media.value.mediaType,
                                     title, season, episode, user.value.title)];
      }
      if user.Some? {
        ss := ss.(user := user.value);
      }
      if media.Some? {
        ss := ss.(media := media.value);
      }
      if ss.state == StatePlaying && newState != StatePlaying {
        ss := ss.(prevPlayedTime := ss.prevPlayedTime + (now - ss.playStarted));
      }
      if ss.state != StatePlaying && newState == StatePlaying {
        ss := ss.(playStarted := now);
      }
      ss := ss.(state := newState, lastUpdate := now);
      assert ss == Transition(was, newState, user, media, now);
      TransitionKeepsWellFormed(sessions, sessionID, newState, user, media, now);
      sessions := sessions[sessionID := ss];
    }

    /** Evicts every stopped record idle for more than the session timeout. */
    method PruneOldSessions(now: int)
      requires Valid()
      modifies this
      ensures Valid()
      ensures sessions == Pruned(old(sessions), now) && plays == old(plays)
    {
      var keys := sessions.Keys;
      while keys != {}
        invariant keys <= old(sessions).Keys
        invariant plays == old(plays)
        invariant forall k :: k in sessions <==>
                    k in old(sessions) && (k in keys || !Stale(old(sessions)[k].state, old(sessions)[k].lastUpdate, now))
        invariant forall k :: k in sessions ==> sessions[k] == old(sessions)[k]
        decreases keys
      {
        var k :| k in keys;
        var v := sessions[k];
        if v.state == StateStopped && now - v.lastUpdate > SessionTimeout {
          sessions := sessions - {k};
        }
        keys := keys - {k};
      }
    }

    /** One play-seconds sample for every record, none skipped; reads only. */
    method Collect(now: int) returns (samples: seq<PlaySeconds>)
      ensures forall i :: 0 <= i < |samples| ==>
                samples[i].session in sessions
                && samples[i] == SampleOf(serverName, samples[i].session, sessions[samples[i].session], now)
      ensures forall id :: id in sessions ==> exists i :: 0 <= i < |samples| && samples[i].session == id
      ensures forall i, j :: 0 <= i < j < |samples| ==> samples[i].session != samples[j].session
    {
      samples := [];
      var keys := sessions.Keys;
      while keys != {}
        invariant keys <= sessions.Keys
        invariant forall i :: 0 <= i < |samples| ==>
                    samples[i].session in sessions && samples[i].session !in keys
                    && samples[i] == SampleOf(serverName, samples[i].session, sessions[samples[i].session], now)
        invariant forall id :: id in sessions && id !in keys ==> exists i :: 0 <= i < |samples| && samples[i].session == id
        invariant forall i, j :: 0 <= i < j < |samples| ==> samples[i].session != samples[j].session
        decreases keys
      {
        var id :| id in keys;
        var ss := sessions[id];
        keys := keys - {id};
        var totalPlayTime := ss.prevPlayedTime;
        if ss.state == StatePlaying {
          totalPlayTime := totalPlayTime + (now - ss.playStarted);
        }
        var (title, season, episode) := Labels(ss.media);
        ghost var before := samples;
        samples := samples + [PlaySeconds(serverName, ss.media.librarySectionTitle, ss.media.mediaType,
                                          title, season, episode, ss.user.title, id, totalPlayTime)];
        assert samples[|samples| - 1] == SampleOf(serverName, id, ss, now);
        assert forall i :: 0 <= i < |before| ==> samples[i] == before[i];
      }
    }
  }
}
