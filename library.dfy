/**
 * Libraries of a Plex server (pkg/plex/library.go) and the lookup of a
 * library by its identifier (the search of `Server.Library`).
 */
module PlexLibrary {
  import opened Playback

  /** A library section; the back-pointer to its server is not modelled. */
  datatype Library = Library(name: string, id: string, libraryType: string, durationTotal: int, storageTotal: int)

  /** The directory types that are reported as libraries. */
  const LibraryTypes: set<string> := {"movie", "show", "artist"}

  /** Whether a provider directory of this type is a library: an exact, case-sensitive match. */
  predicate IsLibraryDirectoryType(directoryType: string)
    ensures IsLibraryDirectoryType(directoryType) <==> directoryType in LibraryTypes
  {
    match directoryType
    case "movie" => true
    case "show" => true
    case "artist" => true
    case _ => false
  }

  /** Everything outside the three types is rejected, including case variants. */
  lemma RejectedDirectoryTypes()
    ensures !IsLibraryDirectoryType("") && !IsLibraryDirectoryType("photo")
    ensures !IsLibraryDirectoryType("Movie") && !IsLibraryDirectoryType("SHOW")
  {
  }

  /** The first library whose identifier is `id`, or None when there is none. */
  function LibraryByID(libraries: seq<Library>, id: string): (r: Option<Library>)
    ensures r.Some? ==> r.value.id == id
    ensures r.Some? ==> exists i :: 0 <= i < |libraries| && libraries[i] == r.value &&
                          forall j :: 0 <= j < i ==> libraries[j].id != id
    ensures r.None? <==> forall i :: 0 <= i < |libraries| ==> libraries[i].id != id
  {
    if libraries == [] then None
    else if libraries[0].id == id then Some(libraries[0])
    else
      var r := LibraryByID(libraries[1..], id);
      assert r.Some? ==> exists i :: 0 <= i < |libraries| && libraries[i] == r.value &&
                          forall j :: 0 <= j < i ==> libraries[j].id != id by {
        if r.Some? {
          var i :| 0 <= i < |libraries[1..]| && libraries[1..][i] == r.value &&
                   forall j :: 0 <= j < i ==> libraries[1..][j].id != id;
          assert libraries[i + 1] == r.value;
          forall j | 0 <= j < i + 1 ensures libraries[j].id != id {
            if j > 0 { assert libraries[j] == libraries[1..][j - 1]; }
          }
        }
      }
      assert r.None? <==> forall i :: 0 <= i < |libraries| ==> libraries[i].id != id by {
        if r.None? {
          forall i | 0 <= i < |libraries| ensures libraries[i].id != id {
            if i > 0 { assert libraries[i] == libraries[1..][i - 1]; }
          }
        }
      }
      r
  }
}
