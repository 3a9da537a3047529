/**
 * Server bookkeeping of pkg/plex/server.go: the refresh that rebuilds the
 * library list from the media-provider response, the bandwidth statistics
 * watermark, the lookup of a library by identifier, and the guard of
 * `Listen` (pkg/plex/listener.go) that allows one listener per server.
 *
 * Responses of the server's HTTP API are inputs of type `Fetched<...>`.
 */
module PlexServer {
  import opened Playback
  import PlexLibrary
  import PlexSessions
  import PlexListener

  // ---------------------------------------------------------------------
  // The media-provider response and the libraries it yields
  // ---------------------------------------------------------------------

  datatype Directory = Directory(identifier: string, durationTotal: int, storageTotal: int, title: string, directoryType: string)
  datatype Feature = Feature(featureType: string, directories: seq<Directory>)
  datatype MediaProvider = MediaProvider(identifier: string, features: seq<Feature>)
  datatype ProvidersContainer = ProvidersContainer(friendlyName: string, machineIdentifier: string, version: string,
                                                   providers: seq<MediaProvider>)

  const LibraryProvider := "com.plexapp.plugins.library"
  const ContentFeature := "content"

  function LibraryOf(d: Directory): PlexLibrary.Library
  {
    PlexLibrary.Library(d.title, d.identifier, d.directoryType, d.durationTotal, d.storageTotal)
  }

  predicate AllLibraryTypes(libs: seq<PlexLibrary.Library>)
  {
    forall i :: 0 <= i < |libs| ==> libs[i].libraryType in PlexLibrary.LibraryTypes
  }

  /**
   * The libraries contributed by each element of `xs`, one element after the
   * other: the shape of each of the three nested filter loops.
   */
  function FlatMap<T>(xs: seq<T>, share: T -> seq<PlexLibrary.Library>): seq<PlexLibrary.Library>
    decreases |xs|
  {
    if xs == [] then [] else FlatMap(xs[..|xs| - 1], share) + share(xs[|xs| - 1])
  }

  /** Input order is kept: the libraries of a concatenation are those of its parts, one after the other. */
  lemma {:induction false} FlatMapAppend<T>(a: seq<T>, b: seq<T>, share: T -> seq<PlexLibrary.Library>)
    ensures FlatMap(a + b, share) == FlatMap(a, share) + FlatMap(b, share)
    decreases |b|
  {
    if b == [] {
      assert a + b == a;
    } else {
      var init := b[..|b| - 1];
      assert (a + b)[..|a + b| - 1] == a + init;
      assert (a + b)[|a + b| - 1] == b[|b| - 1];
      FlatMapAppend(a, init, share);
    }
  }

  /** A library is in the list exactly when some element contributes it. */
  lemma {:induction false} FlatMapMembers<T>(xs: seq<T>, share: T -> seq<PlexLibrary.Library>, l: PlexLibrary.Library)
    ensures l in FlatMap(xs, share) <==> exists i :: 0 <= i < |xs| && l in share(xs[i])
    decreases |xs|
  {
    if xs != [] {
      var init := xs[..|xs| - 1];
      FlatMapMembers(init, share, l);
      assert forall i :: 0 <= i < |init| ==> init[i] == xs[i];
    }
  }

  lemma {:induction false} FlatMapTypes<T>(xs: seq<T>, share: T -> seq<PlexLibrary.Library>)
    requires forall x :: AllLibraryTypes(share(x))
    ensures AllLibraryTypes(FlatMap(xs, share))
    decreases |xs|
  {
    if xs != [] {
      FlatMapTypes(xs[..|xs| - 1], share);
      var r, rest, last := FlatMap(xs, share), FlatMap(xs[..|xs| - 1], share), share(xs[|xs| - 1]);
      assert forall i :: 0 <= i < |r| ==> r[i] == (if i < |rest| then rest[i] else last[i - |rest|]);
    }
  }

  /** What one directory contributes: its library when its type is accepted. */
  function DirectoryShare(d: Directory): (r: seq<PlexLibrary.Library>)
    ensures AllLibraryTypes(r)
    ensures PlexLibrary.IsLibraryDirectoryType(d.directoryType) <==> r == [LibraryOf(d)]
    ensures !PlexLibrary.IsLibraryDirectoryType(d.directoryType) <==> r == []
  {
    if PlexLibrary.IsLibraryDirectoryType(d.directoryType) then [LibraryOf(d)] else []
  }

  /** The libraries of a feature's directories, in order: those of a library type. */
  function DirectoryLibraries(ds: seq<Directory>): (r: seq<PlexLibrary.Library>)
    ensures AllLibraryTypes(r)
  {
    FlatMapTypes(ds, DirectoryShare);
    FlatMap(ds, DirectoryShare)
  }

  /** What one feature contributes: its directories' libraries when it is a content feature. */
  function FeatureShare(f: Feature): (r: seq<PlexLibrary.Library>)
    ensures AllLibraryTypes(r)
    ensures f.featureType != ContentFeature ==> r == []
  {
    if f.featureType == ContentFeature then DirectoryLibraries(f.directories) else []
  }

  /** The libraries of a provider's features, in order: only content features count. */
  function FeatureLibraries(fs: seq<Feature>): (r: seq<PlexLibrary.Library>)
    ensures AllLibraryTypes(r)
  {
    FlatMapTypes(fs, FeatureShare);
    FlatMap(fs, FeatureShare)
  }

  /** What one provider contributes: its features' libraries when it is the library provider. */
  function ProviderShare(p: MediaProvider): (r: seq<PlexLibrary.Library>)
    ensures AllLibraryTypes(r)
    ensures p.identifier != LibraryProvider ==> r == []
  {
    if p.identifier == LibraryProvider then FeatureLibraries(p.features) else []
  }

  /** The library list a refresh builds, in order: only the library provider counts. */
  function ProviderLibraries(ps: seq<MediaProvider>): (r: seq<PlexLibrary.Library>)
    ensures AllLibraryTypes(r)
  {
    FlatMapTypes(ps, ProviderShare);
    FlatMap(ps, ProviderShare)
  }

  /** The list holds exactly the libraries of the accepted directories. */
  lemma DirectoryLibrariesMembers(ds: seq<Directory>, l: PlexLibrary.Library)
    ensures l in DirectoryLibraries(ds) <==>
            exists k :: 0 <= k < |ds| && PlexLibrary.IsLibraryDirectoryType(ds[k].directoryType) && l == LibraryOf(ds[k])
  {
    FlatMapMembers(ds, DirectoryShare, l);
  }

  /** The list holds exactly the libraries of the content features' directories. */
  lemma FeatureLibrariesMembers(fs: seq<Feature>, l: PlexLibrary.Library)
    ensures l in FeatureLibraries(fs) <==>
            exists j :: 0 <= j < |fs| && fs[j].featureType == ContentFeature && l in DirectoryLibraries(fs[j].directories)
  {
    FlatMapMembers(fs, FeatureShare, l);
  }

  /** The list holds exactly the libraries of the library provider's content features. */
  lemma ProviderLibrariesMembers(ps: seq<MediaProvider>, l: PlexLibrary.Library)
    ensures l in ProviderLibraries(ps) <==>
            exists i :: 0 <= i < |ps| && ps[i].identifier == LibraryProvider && l in FeatureLibraries(ps[i].features)
  {
    FlatMapMembers(ps, ProviderShare, l);
  }

  /**
   * Each level keeps input order: the list built from a concatenation is the
   * lists of its parts, one after the other; with `LibrariesOfOne` this
   * determines each list.
   */
  lemma LibrariesKeepInputOrder(ds1: seq<Directory>, ds2: seq<Directory>, fs1: seq<Feature>, fs2: seq<Feature>,
                                ps1: seq<MediaProvider>, ps2: seq<MediaProvider>)
    ensures DirectoryLibraries(ds1 + ds2) == DirectoryLibraries(ds1) + DirectoryLibraries(ds2)
    ensures FeatureLibraries(fs1 + fs2) == FeatureLibraries(fs1) + FeatureLibraries(fs2)
    ensures ProviderLibraries(ps1 + ps2) == ProviderLibraries(ps1) + ProviderLibraries(ps2)
  {
    FlatMapAppend(ds1, ds2, DirectoryShare);
    FlatMapAppend(fs1, fs2, FeatureShare);
    FlatMapAppend(ps1, ps2, ProviderShare);
  }

  /** A one-element input yields exactly that element's share, at every level. */
  lemma LibrariesOfOne(d: Directory, f: Feature, p: MediaProvider)
    ensures DirectoryLibraries([d]) == DirectoryShare(d)
    ensures FeatureLibraries([f]) == FeatureShare(f)
    ensures ProviderLibraries([p]) == ProviderShare(p)
  {
    assert [d][..0] == [] && [f][..0] == [] && [p][..0] == [];
    assert FlatMap([d], DirectoryShare) == FlatMap([], DirectoryShare) + DirectoryShare(d);
    assert FlatMap([f], FeatureShare) == FlatMap([], FeatureShare) + FeatureShare(f);
    assert FlatMap([p], ProviderShare) == FlatMap([], ProviderShare) + ProviderShare(p);
  }

  /** Without a library provider, or without a content feature, a refresh yields no library. */
  lemma NoLibraryProviderNoLibraries(ps: seq<MediaProvider>, fs: seq<Feature>)
    ensures (forall i :: 0 <= i < |ps| ==> ps[i].identifier != LibraryProvider) ==> ProviderLibraries(ps) == []
    ensures (forall j :: 0 <= j < |fs| ==> fs[j].featureType != ContentFeature) ==> FeatureLibraries(fs) == []
  {
    if ProviderLibraries(ps) != [] {
      ProviderLibrariesMembers(ps, ProviderLibraries(ps)[0]);
    }
    if FeatureLibraries(fs) != [] {
      FeatureLibrariesMembers(fs, FeatureLibraries(fs)[0]);
    }
  }

  /** A library-type directory of a content feature of the library provider becomes exactly one library. */
  lemma OneLibraryPerDirectory(d: Directory)
    ensures ProviderLibraries([MediaProvider(LibraryProvider, [Feature(ContentFeature, [d])])])
         == (if d.directoryType in PlexLibrary.LibraryTypes then [LibraryOf(d)] else [])
  {
    var f := Feature(ContentFeature, [d]);
    LibrariesOfOne(d, f, MediaProvider(LibraryProvider, [f]));
  }

  // ---------------------------------------------------------------------
  // Bandwidth statistics
  // ---------------------------------------------------------------------

  datatype BandwidthSample = BandwidthSample(at: int, lan: bool, bytes: nat)

  predicate SortedByAt(s: seq<BandwidthSample>)
  {
    forall i, j :: 0 <= i < j < |s| ==> s[i].at <= s[j].at
  }

  /** A sample no later than the first of a sorted sequence can go in front of it. */
  lemma ConsSortedByAt(x: BandwidthSample, s: seq<BandwidthSample>)
    requires SortedByAt(s)
    requires s != [] ==> x.at <= s[0].at
    ensures SortedByAt([x] + s)
  {
    var r := [x] + s;
    forall i, j | 0 <= i < j < |r|
      ensures r[i].at <= r[j].at
    {
      if i == 0 {
        assert r[j] == s[j - 1];
      } else {
        assert r[i] == s[i - 1] && r[j] == s[j - 1];
      }
    }
  }

  function InsertByAt(x: BandwidthSample, s: seq<BandwidthSample>): (r: seq<BandwidthSample>)
    requires SortedByAt(s)
    ensures SortedByAt(r)
    ensures |r| == |s| + 1 && (r[0] == x || (s != [] && r[0] == s[0]))
    ensures multiset(r) == multiset(s) + multiset{x}
  {
    if s == [] then [x]
    else if x.at <= s[0].at then ConsSortedByAt(x, s); [x] + s
    else
      var rest := InsertByAt(x, s[1..]);
      assert s == [s[0]] + s[1..];
      assert multiset([s[0]] + rest) == multiset{s[0]} + multiset(s[1..]) + multiset{x};
      assert s[0].at <= rest[0].at;
      ConsSortedByAt(s[0], rest);
      [s[0]] + rest
  }

  /** The samples in ascending `at` order (the source's `sort.Slice`). */
  function SortByAt(s: seq<BandwidthSample>): (r: seq<BandwidthSample>)
    ensures SortedByAt(r)
    ensures multiset(r) == multiset(s)
  {
    if s == [] then []
    else
      assert s == [s[0]] + s[1..];
      InsertByAt(s[0], SortByAt(s[1..]))
  }

  /** The loops of the refresh that build the library list from the providers. */
  method CollectLibraries(providers: seq<MediaProvider>) returns (libraries: seq<PlexLibrary.Library>)
    ensures libraries == ProviderLibraries(providers)
  {
    libraries := [];
    var i := 0;
    while i < |providers|
      invariant 0 <= i <= |providers|
      invariant libraries == ProviderLibraries(providers[..i])
    {
      var provider := providers[i];
      assert providers[..i + 1][..i] == providers[..i];
      if provider.identifier == LibraryProvider {
        libraries := AppendFeatures(libraries, provider.features);
      }
      i := i + 1;
    }
    assert providers[..i] == providers;
  }

  /** The loop over one provider's features, appending to `acc`. */
  method AppendFeatures(acc: seq<PlexLibrary.Library>, features: seq<Feature>) returns (libraries: seq<PlexLibrary.Library>)
    ensures libraries == acc + FeatureLibraries(features)
  {
    libraries := acc;
    var j := 0;
    while j < |features|
      invariant 0 <= j <= |features|
      invariant libraries == acc + FeatureLibraries(features[..j])
    {
      var feature := features[j];
      assert features[..j + 1][..j] == features[..j];
      if feature.featureType == ContentFeature {
        libraries := AppendDirectories(libraries, feature.directories);
      }
      j := j + 1;
    }
    assert features[..j] == features;
  }

  /** The loop over one feature's directories, appending to `acc`. */
  method AppendDirectories(acc: seq<PlexLibrary.Library>, directories: seq<Directory>)
    returns (libraries: seq<PlexLibrary.Library>)
    ensures libraries == acc + DirectoryLibraries(directories)
  {
    libraries := acc;
    var k := 0;
    while k < |directories|
      invariant 0 <= k <= |directories|
      invariant libraries == acc + DirectoryLibraries(directories[..k])
    {
      var directory := directories[k];
      assert directories[..k + 1][..k] == directories[..k];
      if PlexLibrary.IsLibraryDirectoryType(directory.directoryType) {
        libraries := libraries + [LibraryOf(directory)];
      }
      k := k + 1;
    }
    assert directories[..k] == directories;
  }

  /** The bytes of the samples newer than the watermark `last`; older ones are ignored. */
  function CountedBytes(s: seq<BandwidthSample>, last: int): (r: int)
    ensures r >= 0
  {
    if s == [] then 0
    else (if s[0].at > last then s[0].bytes else 0) + CountedBytes(s[1..], last)
  }

  /** The total counted does not depend on the order the samples come in. */
  lemma {:induction false} CountedBytesInsert(x: BandwidthSample, s: seq<BandwidthSample>, last: int)
    requires SortedByAt(s)
    ensures CountedBytes(InsertByAt(x, s), last) == CountedBytes([x] + s, last)
  {
    if s != [] && x.at > s[0].at {
      CountedBytesInsert(x, s[1..], last);
      assert ([s[0]] + InsertByAt(x, s[1..]))[1..] == InsertByAt(x, s[1..]);
      assert ([x] + s[1..])[1..] == s[1..];
      assert ([x] + s)[1..] == s;
    } else if s == [] {
      assert [x][1..] == [];
    } else {
      assert ([x] + s)[1..] == s;
    }
  }

  lemma {:induction false} CountedBytesSorted(s: seq<BandwidthSample>, last: int)
    ensures CountedBytes(SortByAt(s), last) == CountedBytes(s, last)
  {
    if s != [] {
      CountedBytesSorted(s[1..], last);
      CountedBytesInsert(s[0], SortByAt(s[1..]), last);
      assert ([s[0]] + SortByAt(s[1..]))[1..] == SortByAt(s[1..]);
    }
  }

  /**
   * The running maximum of the `at` of the samples newer than `last`,
   * started at `from`: the larger of `from` and every such `at`.
   */
  function HighestFrom(s: seq<BandwidthSample>, last: int, from: int): (r: int)
    ensures r >= from
    ensures forall i :: 0 <= i < |s| && s[i].at > last ==> s[i].at <= r
    ensures r == from || exists i :: 0 <= i < |s| && s[i].at > last && s[i].at == r
  {
    if s == [] then from
    else
      var next := if s[0].at > last && s[0].at > from then s[0].at else from;
      var r := HighestFrom(s[1..], last, next);
      assert forall i :: 1 <= i < |s| ==> s[i] == s[1..][i - 1];
      r
  }

  /** The watermark and the transmitted-bytes counter the refresh maintains. */
  datatype Watermark = Watermark(lastAt: int, transmitted: int)

  /** The effect of the bandwidth refresh as written: the watermark becomes the highest counted sample, or 0. */
  function BandwidthRefresh(bandwidth: Fetched<seq<BandwidthSample>>, w: Watermark): (r: (Option<ClientError>, Watermark))
    ensures bandwidth == Err(NotFound) ==> r == (None, w)
    ensures bandwidth.Err? && bandwidth.error != NotFound ==> r == (Some(bandwidth.error), w)
    ensures bandwidth.Ok? ==> r.0 == None
    ensures bandwidth.Ok? ==> r.1.transmitted == w.transmitted + CountedBytes(bandwidth.value, w.lastAt)
    ensures bandwidth.Ok? ==> r.1.lastAt == HighestFrom(bandwidth.value, w.lastAt, 0)
  {
    match bandwidth
    case Err(NotFound) => (None, w)
    case Err(e) => (Some(e), w)
    case Ok(samples) =>
      CountedBytesSorted(samples, w.lastAt);
      HighestFromSorted(samples, w.lastAt, 0);
      var lastAt := HighestFrom(SortByAt(samples), w.lastAt, 0);
      (None, Watermark(lastAt, w.transmitted + CountedBytes(SortByAt(samples), w.lastAt)))
  }

  /** Sorting does not change the running maximum. */
  lemma HighestFromSorted(s: seq<BandwidthSample>, last: int, from: int)
    ensures HighestFrom(SortByAt(s), last, from) == HighestFrom(s, last, from)
  {
    var t := SortByAt(s);
    var a, b := HighestFrom(t, last, from), HighestFrom(s, last, from);
    assert forall x :: x in s <==> x in t by {
      forall x ensures x in s <==> x in t {
        assert x in s <==> x in multiset(s);
        assert x in t <==> x in multiset(t);
      }
    }
    if a != from {
      var i :| 0 <= i < |t| && t[i].at > last && t[i].at == a;
      assert t[i] in s;
    }
    if b != from {
      var i :| 0 <= i < |s| && s[i].at > last && s[i].at == b;
      assert s[i] in t;
    }
  }

  /** The corrected refresh: the watermark never moves back, so nothing is counted twice. */
  function CorrectedBandwidthRefresh(bandwidth: Fetched<seq<BandwidthSample>>, w: Watermark): (r: (Option<ClientError>, Watermark))
    ensures bandwidth == Err(NotFound) ==> r == (None, w)
    ensures bandwidth.Err? && bandwidth.error != NotFound ==> r == (Some(bandwidth.error), w)
    ensures bandwidth.Ok? ==> r.0 == None
    ensures bandwidth.Ok? ==> r.1.transmitted == w.transmitted + CountedBytes(bandwidth.value, w.lastAt)
    ensures bandwidth.Ok? ==> r.1.lastAt == HighestFrom(bandwidth.value, w.lastAt, w.lastAt)
  {
    match bandwidth
    case Err(NotFound) => (None, w)
    case Err(e) => (Some(e), w)
    case Ok(samples) =>
      CountedBytesSorted(samples, w.lastAt);
      HighestFromSorted(samples, w.lastAt, w.lastAt);
      var lastAt := HighestFrom(SortByAt(samples), w.lastAt, w.lastAt);
      (None, Watermark(lastAt, w.transmitted + CountedBytes(SortByAt(samples), w.lastAt)))
  }

  lemma {:induction false} NothingNewerCountsNothing(s: seq<BandwidthSample>, last: int)
    requires forall i :: 0 <= i < |s| ==> s[i].at <= last
    ensures CountedBytes(s, last) == 0
  {
    if s != [] {
      assert forall i :: 0 <= i < |s[1..]| ==> s[1..][i] == s[i + 1];
      NothingNewerCountsNothing(s[1..], last);
    }
  }

  /**
   * As written, a refresh that finds no sample newer than the watermark resets
   * it to 0, and the next refresh over the same samples counts them again.
   */
  lemma AsWrittenRecountsOldSamples()
    ensures var samples := [BandwidthSample(100, false, 5)];
            var first := BandwidthRefresh(Ok(samples), Watermark(100, 0));
            var second := BandwidthRefresh(Ok(samples), first.1);
            first.1 == Watermark(0, 0) && second.1.transmitted == 5
  {
    var samples := [BandwidthSample(100, false, 5)];
    assert samples[1..] == [];
  }

  /** Corrected, a repeated refresh over the same samples adds nothing, and the watermark never decreases. */
  lemma CorrectedNeverRecounts(samples: seq<BandwidthSample>, w: Watermark)
    ensures var first := CorrectedBandwidthRefresh(Ok(samples), w);
            var second := CorrectedBandwidthRefresh(Ok(samples), first.1);
            first.1.lastAt >= w.lastAt && second.1 == first.1
  {
    var first := CorrectedBandwidthRefresh(Ok(samples), w);
    NothingNewerCountsNothing(samples, first.1.lastAt);
  }

  /**
   * The loop over the sorted samples: the bytes of those newer than `last`,
   * and the running maximum of their `at`, started at `start`.
   */
  method ScanUpdates(updates: seq<BandwidthSample>, last: int, start: int) returns (added: int, highest: int)
    ensures added == CountedBytes(updates, last)
    ensures highest == HighestFrom(updates, last, start)
  {
    added, highest := 0, start;
    var i := 0;
    while i < |updates|
      invariant 0 <= i <= |updates|
      invariant added + CountedBytes(updates[i..], last) == CountedBytes(updates, last)
      invariant HighestFrom(updates[i..], last, highest) == HighestFrom(updates, last, start)
    {
      var u := updates[i];
      assert updates[i..][1..] == updates[i + 1..];
      if u.at > last {
        added := added + u.bytes;
        if u.at > highest {
          highest := u.at;
        }
      }
      i := i + 1;
    }
  }

  datatype ListenResult = AlreadyListening | ConnectFailed | Listening

  class Server {
    var id: string
    var name: string
    var version: string
    var libraries: seq<PlexLibrary.Library>
    var lastBandwidthAt: int
    /** The transmitted-bytes counter fed by the bandwidth statistics. */
    var transmittedBytes: int
    var listener: PlexListener.Listener?

    function Bandwidth(): Watermark
      reads this
    {
      Watermark(lastBandwidthAt, transmittedBytes)
    }

    /** A server as created, before its first refresh; `startedAt` is the Unix time of creation. */
    constructor (startedAt: int)
      ensures libraries == [] && listener == null
      ensures lastBandwidthAt == startedAt && transmittedBytes == 0
    {
      id, name, version := "", "", "";
      libraries := [];
      lastBandwidthAt := startedAt;
      transmittedBytes := 0;
      listener := null;
    }

    /**
     * Re-reads the server identity and library list, then the resource and
     * bandwidth statistics. A missing statistics endpoint is not an error.
     */
    method Refresh(providers: Fetched<ProvidersContainer>, resources: Fetched<()>,
                   bandwidth: Fetched<seq<BandwidthSample>>) returns (err: Option<ClientError>)
      modifies this
      ensures listener == old(listener)
      ensures providers.Err? ==>
                && err == Some(providers.error)
                && id == old(id) && name == old(name) && version == old(version)
                && libraries == old(libraries) && Bandwidth() == old(Bandwidth())
      ensures providers.Ok? ==>
                && id == providers.value.machineIdentifier
                && name == providers.value.friendlyName
                && version == providers.value.version
                && libraries == ProviderLibraries(providers.value.providers)
      ensures providers.Ok? && resources.Err? && resources.error != NotFound ==>
                err == Some(resources.error) && Bandwidth() == old(Bandwidth())
      ensures providers.Ok? && (resources.Ok? || resources == Err(NotFound)) ==>
                (err, Bandwidth()) == BandwidthRefresh(bandwidth, old(Bandwidth()))
    {
      if providers.Err? {
        return Some(providers.error);
      }
      var container := providers.value;
      id := container.machineIdentifier;
      name := container.friendlyName;
      version := container.version;
      libraries := CollectLibraries(container.providers);

      if resources.Err? && resources.error != NotFound {
        return Some(resources.error);
      }
      err := RefreshBandwidth(bandwidth);
    }

    /** The bandwidth refresh as written: see `AsWrittenRecountsOldSamples`. */
    method RefreshBandwidth(bandwidth: Fetched<seq<BandwidthSample>>) returns (err: Option<ClientError>)
      modifies this
      ensures (err, Bandwidth()) == BandwidthRefresh(bandwidth, old(Bandwidth()))
      ensures id == old(id) && name == old(name) && version == old(version)
      ensures libraries == old(libraries) && listener == old(listener)
    {
      if bandwidth == Err(NotFound) {
        return None;
      }
      if bandwidth.Err? {
        return Some(bandwidth.error);
      }
      var updates := SortByAt(bandwidth.value);
      var added, highest := ScanUpdates(updates, lastBandwidthAt, 0);
      CountedBytesSorted(bandwidth.value, lastBandwidthAt);
      HighestFromSorted(bandwidth.value, lastBandwidthAt, 0);
      transmittedBytes := transmittedBytes + added;
      lastBandwidthAt := highest;
      return None;
    }

    /** The bandwidth refresh with the running maximum started at the current watermark. */
    method RefreshBandwidthCorrected(bandwidth: Fetched<seq<BandwidthSample>>) returns (err: Option<ClientError>)
      modifies this
      ensures (err, Bandwidth()) == CorrectedBandwidthRefresh(bandwidth, old(Bandwidth()))
      ensures id == old(id) && name == old(name) && version == old(version)
      ensures libraries == old(libraries) && listener == old(listener)
    {
      if bandwidth == Err(NotFound) {
        return None;
      }
      if bandwidth.Err? {
        return Some(bandwidth.error);
      }
      var updates := SortByAt(bandwidth.value);
      var added, highest := ScanUpdates(updates, lastBandwidthAt, lastBandwidthAt);
      CountedBytesSorted(bandwidth.value, lastBandwidthAt);
      HighestFromSorted(bandwidth.value, lastBandwidthAt, lastBandwidthAt);
      transmittedBytes := transmittedBytes + added;
      lastBandwidthAt := highest;
      return None;
    }

    /** The first library with identifier `libraryID`, or None. */
    method Library(libraryID: string) returns (r: Option<PlexLibrary.Library>)
      ensures r == PlexLibrary.LibraryByID(libraries, libraryID)
    {
      var i := 0;
      while i < |libraries|
        invariant 0 <= i <= |libraries|
        invariant forall j :: 0 <= j < i ==> libraries[j].id != libraryID
      {
        if libraries[i].id == libraryID {
          return Some(libraries[i]);
        }
        i := i + 1;
      }
      return None;
    }

    /**
     * Starts listening for notifications; a server that already has a
     * listener refuses. `connected` is whether the client connection could
     * be created. The websocket subscription that follows is not modelled.
     */
    method Listen(connected: bool) returns (r: ListenResult)
      modifies this
      ensures old(listener) != null ==> r == AlreadyListening && listener == old(listener)
      ensures old(listener) == null && !connected ==> r == ConnectFailed && listener == null
      ensures old(listener) == null && connected ==>
                && r == Listening && listener != null && fresh(listener) && fresh(listener.activeSessions)
                && listener.activeSessions.Valid() && listener.activeSessions.sessions == map[]
                && listener.activeSessions.totalKBits == 0
      ensures id == old(id) && name == old(name) && version == old(version)
      ensures libraries == old(libraries) && Bandwidth() == old(Bandwidth())
    {
      if listener != null {
        return AlreadyListening;
      }
      if !connected {
        return ConnectFailed;
      }
      listener := new PlexListener.Listener();
      return Listening;
    }

    /**
     * The session part of a scrape: with a listener set, the snapshot of its
     * registry under this server's name and ID, and the byte estimate; with
     * none, nothing. The library gauges sent before it are not modelled.
     */
    method Collect(now: int) returns (metrics: seq<PlexSessions.SessionMetrics>, transmittedBytes: Option<int>)
      requires listener != null ==> PlexSessions.CanCollect(listener.activeSessions.Model(), libraries)
      ensures listener == null ==> metrics == [] && transmittedBytes == None
      ensures listener != null ==>
                && PlexSessions.IsSnapshot(metrics, listener.activeSessions.sessions, libraries, name, id, now)
                && transmittedBytes == Some(PlexSessions.EstimatedBytes(listener.activeSessions.Model(), now))
    {
      if listener == null {
        return [], None;
      }
      var bytes;
      metrics, bytes := listener.activeSessions.Collect(libraries, name, id, now);
      return metrics, Some(bytes);
    }
  }
}
