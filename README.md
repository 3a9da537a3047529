# Plex exporter core, modelled in Dafny

This project models the bookkeeping core of a Prometheus exporter for a Plex
media server. The exporter listens to the server's play-state notifications.
It keeps one record per playback session: state, accumulated play time, and
an estimate of the bytes streamed. It also counts plays, and a periodic
refresh rebuilds the server's library list and totals its bandwidth
statistics.

The project has six modules:

- `Playback` (`playback.dfy`) is the shared vocabulary: metadata records,
  notifications, request outcomes, and the helpers both packages define
  identically. These are the title `labels`, the play-time sum and the
  linear `getSessionByID` search.
- `PlexLibrary` (`library.dfy`) holds libraries, the accepted directory
  types and the lookup of a library by identifier.
- `PlexSessions` (`sessions.dfy`) is the session registry of the `pkg/plex`
  package, as the class `Sessions`. Each method is proved against a
  specification function on the registry's value (`Apply`, `Pruned`,
  `EstimatedBytes`). The properties are lemmas over those functions, such as
  exact accumulation of play time over any sequence of updates and the
  growth of the byte estimate.
- `PlexListener` (`listener.dfy`) turns a batch of notifications into
  registry updates, with early return on the first failure.
- `PlexServer` (`server.dfy`) covers the server refresh:
  - the library-list rebuild from the media-provider response;
  - the bandwidth-statistics watermark and the transmitted-bytes counter;
  - `Library(id)`;
  - the one-listener guard of `Listen`.
- `CmdSessions` (`cmd_sessions.dfy`) and `CmdOnPlaying` (`cmd_onplaying.dfy`)
  are the older `cmd` variant: the registry with a first-play counter, and
  the earliest tracker with its set of active session keys.

Modelling conventions:

- **Time.** Time is an explicit parameter `now` in whole seconds. The
  instant 0 stands for Go's zero `time.Time`, so a clock reading is always
  positive and never earlier than a recorded update (`ClockAfter`).
- **Requests.** HTTP responses are inputs of type `Fetched<T>`: a decoded
  body, `NotFound`, or another failure. Metadata lookups are a map from
  rating key to the first metadata item, and a missing key is a failed
  request.
- **Prometheus counters.** They are modelled as logs of their increments
  (`plays`) or as integer fields (`transmittedBytes`, `totalKBits`).

## Model

| member | source | states |
|---|---|---|
| Playback.Labels | pkg/plex/sessions.go:193-198 | episodes yield (series, season, episode title); everything else yields (title, "", ""); the same split is defined at cmd/sessions.go:159-164 |
| Playback.TotalPlayTime | pkg/plex/sessions.go:161-164 | the reported play time is the accumulated time plus the open interval exactly when playing; it is never below the accumulated time |
| Playback.SessionByID | pkg/plex/listener.go:86-93 | returns the first session whose key matches, or None exactly when no session matches; the same search is at cmd/handler_onplaying.go:34-41 |
| PlexLibrary.IsLibraryDirectoryType | pkg/plex/library.go:14-23 | true exactly for the directory types in {movie, show, artist} |
| PlexLibrary.RejectedDirectoryTypes | pkg/plex/library.go:15-22 | "", "photo" and the case variants "Movie" and "SHOW" are rejected: the match is exact |
| PlexLibrary.LibraryByID | pkg/plex/server.go:219-224 | the first library whose ID matches, or None exactly when none matches |
| PlexSessions.Apply | pkg/plex/sessions.go:73-102 | after an update, the entry exists with the new state stamped now and every other entry is unchanged; session and media are replaced only when supplied; leaving playing adds the interval to the play time and interval·bitrate to the kilobit total; entering playing stamps the start |
| PlexSessions.ApplyKeepsInvariants | pkg/plex/sessions.go:73-102 | an update keeps every record's times ordered and the clock bound, and keeps a bitrate for every playing record when it supplies a stream |
| PlexSessions.KnownBitratesAllowUpdate | pkg/plex/sessions.go:87-92 | when every playing record has a stream and the update supplies one, flattening never reads a missing `Media[0]` |
| PlexSessions.RepeatedStopFlattensNothing | pkg/plex/sessions.go:87-92 | a second stop adds nothing to the play time or the kilobit total |
| PlexSessions.AccumulatedPlayTime | pkg/plex/sessions.go:87-100 | over any sequence of updates, the reported play time grows by exactly the seconds spent in playing (the reference sum `PlayingSeconds`) |
| PlexSessions.FreshRecordPlayTime | pkg/plex/sessions.go:77-101 | a new record that ends outside playing stores exactly the seconds it played |
| PlexSessions.RunEndsInLastState | pkg/plex/sessions.go:99-100 | after a sequence of updates, the state and last-update time are those of the last update |
| PlexSessions.PlayPauseResumeStop | pkg/plex/sessions.go:87-100 | play at 100, pause at 130, resume at 145, stop at 200: 85 seconds played, last start 145 |
| PlexSessions.Pruned | pkg/plex/sessions.go:62-71 | keeps exactly the records that are not both stopped and idle for over a minute, unchanged |
| PlexSessions.PruneIdempotent | pkg/plex/sessions.go:66-70 | a second sweep at the same instant removes nothing |
| PlexSessions.OpenKBitsGrowth | pkg/plex/sessions.go:104-115 | between two instants, the open intervals' kilobits grow by exactly the elapsed time times the sum of playing bitrates |
| PlexSessions.EstimateGrowsWithTime | pkg/plex/sessions.go:104-115 | the byte estimate grows by 128 times that product and never decreases with time |
| PlexSessions.MetricsOf | pkg/plex/sessions.go:139-186 | a record's samples carry its session key, a play count of 1, and a play time never below the accumulated time |
| PlexSessions.MetricsOfLabels | pkg/plex/sessions.go:139-186 | every label: "plex", the server name and ID; the library's name, ID and type; the media type and title triple; the stream decision and resolution of the session's first media entry, the file resolution of the item's first, the bitrate; device, product and user; the play time is the accumulated time plus the open interval when playing |
| PlexSessions.Sessions.constructor | pkg/plex/sessions.go:46-50 | a new registry is empty with a zero total |
| PlexSessions.Sessions.Update | pkg/plex/sessions.go:73-102 | the new registry is `Apply` of the old one; validity and the clock bound are kept |
| PlexSessions.Sessions.PruneOldSessions | pkg/plex/sessions.go:62-71 | the records become `Pruned` of the old ones; the total is unchanged |
| PlexSessions.Sessions.ExtrapolatedTransmittedBytes | pkg/plex/sessions.go:104-115 | returns 128 times the flattened total plus every open interval's kilobits |
| PlexSessions.Sessions.Collect | pkg/plex/sessions.go:124-191 | exactly one sample per record that has played and whose library is found, none twice, each with the labels and play time of that record; then the byte estimate |
| PlexListener.DispatchNotifications | pkg/plex/listener.go:108-137 | stops become (key, stopped, nil, nil) without a lookup; others carry their session and first metadata item; calls are issued in order for the longest dispatchable prefix; the first failure names the missing session, otherwise the failed metadata request |
| PlexListener.Dispatch | pkg/plex/listener.go:102-107 | a failed session fetch issues no call and returns its error |
| PlexListener.DispatchedCallsKeepBitrates | pkg/plex/listener.go:115-134 | the calls of a batch whose sessions all carry a stream keep every playing record's bitrate known |
| PlexListener.ApplyCalls | pkg/plex/listener.go:108-135 | a sequence of updates keeps known bitrates, well-formedness and every key, and never lowers the total |
| PlexListener.Listener.constructor | pkg/plex/listener.go:40-45 | a new listener holds a fresh, empty registry |
| PlexListener.Listener.OnPlaying | pkg/plex/listener.go:102-138 | the registry becomes the old one with the dispatched calls applied in order; the returned error is the dispatch error |
| PlexServer.DirectoryShare | pkg/plex/server.go:116-126 | a directory contributes exactly its library when its type is in {movie, show, artist}, and nothing otherwise |
| PlexServer.FeatureShare | pkg/plex/server.go:112-114 | a feature other than a content feature contributes nothing |
| PlexServer.ProviderShare | pkg/plex/server.go:107-109 | a provider other than the library provider contributes nothing |
| PlexServer.DirectoryLibraries | pkg/plex/server.go:115-127 | every library built from a feature's directories has a type in {movie, show, artist} |
| PlexServer.FeatureLibraries | pkg/plex/server.go:111-128 | every library built from a provider's features has a type in {movie, show, artist} |
| PlexServer.ProviderLibraries | pkg/plex/server.go:106-129 | every library in the rebuilt list has a type in {movie, show, artist} |
| PlexServer.DirectoryLibrariesMembers | pkg/plex/server.go:115-127 | a library is in a feature's list exactly when some directory of an accepted type builds it |
| PlexServer.FeatureLibrariesMembers | pkg/plex/server.go:111-128 | a library is in a provider's list exactly when it is in the list of one of its content features |
| PlexServer.ProviderLibrariesMembers | pkg/plex/server.go:106-129 | a library is in the rebuilt list exactly when it is in the list of the library provider's features |
| PlexServer.LibrariesKeepInputOrder | pkg/plex/server.go:106-129 | at every level, the list built from two concatenated inputs is the list of the first followed by that of the second, so input order is kept |
| PlexServer.LibrariesOfOne | pkg/plex/server.go:106-129 | at every level, a one-element input yields exactly that element's share; with `LibrariesKeepInputOrder` this fixes every list |
| PlexServer.NoLibraryProviderNoLibraries | pkg/plex/server.go:106-114 | without a library provider, or without a content feature, no library is built |
| PlexServer.OneLibraryPerDirectory | pkg/plex/server.go:107-127 | a directory of a content feature of the library provider becomes exactly one library with its fields when its type is accepted, and none otherwise |
| PlexServer.SortByAt | pkg/plex/server.go:195-197 | the samples in ascending `at` order, as a permutation of the input |
| PlexServer.CountedBytesSorted | pkg/plex/server.go:195-202 | the bytes counted do not depend on the order the samples arrive in |
| PlexServer.HighestFrom | pkg/plex/server.go:199-208 | the running maximum is at least its start and every counted `at`, and is its start or one of them |
| PlexServer.HighestFromSorted | pkg/plex/server.go:195-208 | sorting does not change the running maximum |
| PlexServer.BandwidthRefresh | pkg/plex/server.go:182-212 | NotFound succeeds and changes nothing; another error is returned and changes nothing; otherwise the total grows by the bytes of the samples newer than the watermark, and the watermark becomes their highest `at`, or 0 |
| PlexServer.CorrectedBandwidthRefresh | pkg/plex/server.go:182-212 | as `BandwidthRefresh`, but the new watermark is the highest of the old watermark and the counted `at`s |
| PlexServer.AsWrittenRecountsOldSamples | pkg/plex/server.go:199-210 | with the watermark at 100 and one sample at 100, the first refresh resets it to 0 and the second counts the sample's 5 bytes |
| PlexServer.CorrectedNeverRecounts | pkg/plex/server.go:199-210 | corrected, the watermark never decreases and a second refresh over the same samples changes nothing |
| PlexServer.CollectLibraries | pkg/plex/server.go:106-129 | the three filter loops build exactly `ProviderLibraries` |
| PlexServer.AppendFeatures | pkg/plex/server.go:111-128 | the feature loop appends exactly `FeatureLibraries` |
| PlexServer.AppendDirectories | pkg/plex/server.go:115-127 | the directory loop appends exactly `DirectoryLibraries` |
| PlexServer.ScanUpdates | pkg/plex/server.go:199-208 | the loop yields exactly the counted bytes and the running maximum |
| PlexServer.Server.constructor | pkg/plex/server.go:51-57 | a new server has no libraries and no listener, and its watermark is its creation time |
| PlexServer.Server.Refresh | pkg/plex/server.go:74-142 | a failed providers fetch changes nothing and is returned; otherwise identity and libraries are rebuilt from the response; a resources failure other than NotFound is returned before the bandwidth step; then the bandwidth refresh as written (`BandwidthRefresh`) |
| PlexServer.Server.RefreshBandwidth | pkg/plex/server.go:173-213 | the watermark and counter after the refresh are `BandwidthRefresh` of the old ones; nothing else changes |
| PlexServer.Server.RefreshBandwidthCorrected | pkg/plex/server.go:173-213 | the watermark and counter after the refresh are `CorrectedBandwidthRefresh` of the old ones; nothing else changes |
| PlexServer.Server.Library | pkg/plex/server.go:215-225 | returns `LibraryByID` of the current library list |
| PlexServer.Server.Collect | pkg/plex/server.go:262-264 | with a listener, the samples are a snapshot (`IsSnapshot`) of its registry under this server's name and ID, followed by its byte estimate; without one, nothing |
| PlexServer.Server.Listen | pkg/plex/listener.go:27-47 | with a listener already set, returns AlreadyListening and leaves the listener unchanged; a failed connection leaves none; otherwise a fresh listener with an empty registry is set |
| CmdSessions.PlayOf | cmd/sessions.go:90-99 | a play is labelled with the server name, the supplied media's section, type and titles, and the supplied user |
| CmdSessions.Transition | cmd/sessions.go:86-123 | state and last update are overwritten; user and media are replaced only when supplied; entering playing stamps the start with now and otherwise the start is kept; leaving playing adds the open interval to the accumulated time and otherwise it is kept; the reported play time is continuous across the update; a stamped start of play is never cleared |
| CmdSessions.TransitionKeepsWellFormed | cmd/sessions.go:110-123 | an update keeps every record's times ordered and the clock bound |
| CmdSessions.PlayedRecordsCountNothing | cmd/sessions.go:89 | a record that has played never records another play |
| CmdSessions.PlayCountedAtMostOnce | cmd/sessions.go:89-123 | over any sequence of updates, a record records at most one play |
| CmdSessions.FreshRecordCountsOnce | cmd/sessions.go:89-100 | play, pause, play again on a new record counts one play |
| CmdSessions.Pruned | cmd/sessions.go:71-80 | keeps exactly the records that are not both stopped and idle for over a minute, unchanged |
| CmdSessions.SampleOf | cmd/sessions.go:134-155 | a record's sample carries its session key, user, library section, media type and title labels and its total play time, which is non-negative |
| CmdSessions.Sessions.constructor | cmd/sessions.go:54-58 | a new registry is empty, with no plays |
| CmdSessions.Sessions.Update | cmd/sessions.go:82-124 | the record becomes `Transition` of the old one; one play is appended exactly when the state becomes playing, the record never played, and user and media are both supplied |
| CmdSessions.Sessions.PruneOldSessions | cmd/sessions.go:71-80 | the records become `Pruned` of the old ones; the plays are unchanged |
| CmdSessions.Sessions.Collect | cmd/sessions.go:130-157 | exactly one sample per record, none skipped, none twice, each `SampleOf` that record |
| CmdOnPlaying.TrackOne | cmd/handler_onplaying.go:49-88 | a stop removes the key and records nothing; otherwise a missing session, then a missing metadata item, aborts; a playing notification for an inactive key inserts it and records one play for (user, title); anything else changes nothing |
| CmdOnPlaying.TrackBatch | cmd/handler_onplaying.go:49-91 | plays are only appended, at most one per playing notification; keys enter the set only through the batch |
| CmdOnPlaying.TrackBatchCompleted | cmd/handler_onplaying.go:49-91 | a batch without error continued at every notification, from the state the notifications before it left |
| CmdOnPlaying.TrackBatchStopsAtFirstFailure | cmd/handler_onplaying.go:56-64 | a batch with an error stopped at a notification that aborts after all earlier ones continued; the error is that notification's and the tracker is what the earlier ones made |
| CmdOnPlaying.TrackBatchStep | cmd/handler_onplaying.go:49-89 | one more notification after a prefix without error is handled from the state that prefix left |
| CmdOnPlaying.AbortSticks | cmd/handler_onplaying.go:57-64 | once a prefix has failed, the rest of the batch is not looked at |
| CmdOnPlaying.Handle | cmd/handler_onplaying.go:43-47 | a failed session fetch changes nothing and returns its error |
| CmdOnPlaying.StopThenPlayCountsAgain | cmd/handler_onplaying.go:50-53 | a stop followed by a play of the same session counts a second play |
| CmdOnPlaying.RepeatedPlayingCountsOnce | cmd/handler_onplaying.go:81-87 | three playing notifications of one new session count one play |
| CmdOnPlaying.PlayTracker.constructor | cmd/handler_onplaying.go:27 | the tracker starts with no active sessions and no plays |
| CmdOnPlaying.PlayTracker.OnPlaying | cmd/handler_onplaying.go:43-92 | the set and the plays become `Handle` of the old ones; the returned error is the batch's |

## Left out

- HTTP, JSON decoding, the websocket subscription and its close-code handling (pkg/plex/client.go, pkg/plex/listener.go:49-83): responses and connection success are inputs.
- Goroutines, tickers and mutexes: each locked method is one atomic step, and pruning and refreshing are single calls.
- Logging, `Describe` and metric registration.
- The library gauges of the server's `Collect` (pkg/plex/server.go:239-256): `DurationTotal` and `StorageTotal` are floating point. Its forwarding to the listener registry is modelled.
- `refreshResources` (pkg/plex/server.go:144-171): only its error outcome is modelled, because its CPU and memory gauges are floating point.
- Floating point: play time is in whole seconds and kilobit totals are integers. The `*128` factor is kept as written.
- PlexServer.SortByAt: `sort.Slice` sorts in place; the model sorts functionally, and only the sorted order and the permutation are captured.
- PlexSessions.Sessions.Update: it requires `CanUpdate`. The source reads `Media[0]` unchecked when a session leaves playing and panics on an empty list; the model excludes that input instead of modelling the panic.
- PlexListener.Listener.OnPlaying: it requires every fetched session to carry a stream (`StreamsKnown`). This is stronger than the source needs, because only sessions that are played and later stopped are read. The metadata response's unchecked `Metadata[0]` is modelled by the map of first items.
- PlexSessions.Sessions.Collect: it requires every reported record to carry the stream fields the source reads unchecked (`CanCollect`).
- The `server` back-pointer of libraries and sessions: `Collect` takes the server's libraries, name and ID as parameters instead.
- One instant `now` is used for a whole batch and for a whole `Collect`, where the source reads the clock at each step.
- Bitrates are non-negative; the source's `int` is not constrained.
- Byte counts of bandwidth samples are non-negative (`nat`). The source's `int64` is not constrained, and a negative count would make the Prometheus counter's `Add` panic; that path is not modelled.
- Listener construction: the source calls `NewSessions(ctx, s)` while `NewSessions` takes only the server. The model builds an empty registry.
- The `metrics.Play` helper's signature disagrees with its caller; the exported sample is modelled by its labels and values, not by that helper.
- A record pruned and re-created starts from zero, so in the cmd variant it counts a new play. The model captures this through `ZeroSession` and states no lemma beyond it.
- Entry points (`cmd/main.go` and its siblings) and environment configuration are not part of this model.

## Findings

| source | as written | input that shows it | evidently intended | confidence | as-written member | corrected member |
|---|---|---|---|---|---|---|
| pkg/plex/server.go:199-210 | the running maximum starts at 0 and is stored as the new watermark even when no sample is newer | watermark 100 and one sample (at 100, 5 bytes): the first refresh sets the watermark to 0, and the second counts the 5 bytes again | the maximum starts at the current watermark, so it never moves back and no sample is counted twice | medium, not executed | PlexServer.AsWrittenRecountsOldSamples | PlexServer.CorrectedNeverRecounts |
