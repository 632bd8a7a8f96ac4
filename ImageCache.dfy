/** The on-disk cache of image metadata (internal/image/cache.go). The
    cache directory is a map from file name to entry; JSON encoding is not
    modelled, so a file holds either a decoded `cacheEntry` or bytes that do
    not decode. The clock is a parameter. */
module ImageCache {
  import opened Wrappers
  import opened Text
  import opened GoTime

  /** `WikipediaImageInfo`. */
  datatype ImageInfo = ImageInfo(url: string, title: string, description: string, width: int, height: int, source: string)

  /** `cacheEntry`; a nil `ImageInfo` pointer is `None`. */
  datatype CacheEntry = CacheEntry(version: int, timestamp: Instant, objectName: string, imageInfo: Option<ImageInfo>)

  datatype FileData = Decoded(entry: CacheEntry) | Undecodable

  /** A directory entry: a sub-directory or a file. */
  datatype DirEntry = Directory | File(data: FileData)

  /** The errors `Get` reports: "cache miss", "failed to read cache file",
      "failed to unmarshal cache entry", "cache version mismatch", "cache
      entry is stale". */
  datatype CacheError = Miss | ReadFailed | DecodeFailed | VersionMismatch | Stale

  const CacheVersion: int := 1

  /** Entries older than 30 days are stale. */
  const MaxAge: int := 30 * 24 * Hour

  // ---------------------------------------------------------- file names

  /** The characters the sanitiser keeps: ASCII letters, digits, '-' and
      '_'. */
  predicate FileNameChar(c: char) {
    ('a' <= c <= 'z') || ('A' <= c <= 'Z') || ('0' <= c <= '9') || c == '-' || c == '_'
  }

  function SanitizeChar(c: char): char {
    if FileNameChar(c) then c else '_'
  }

  /** The `strings.Map` of `getCacheFilePath`, rune by rune. */
  function Sanitize(name: string): (r: string)
    ensures |r| == |name|
    ensures forall i :: 0 <= i < |name| ==> r[i] == SanitizeChar(name[i])
  {
    if name == [] then [] else [SanitizeChar(name[0])] + Sanitize(name[1..])
  }

  /** The sanitiser keeps the rune count, keeps every allowed character,
      turns every other into '_', produces only allowed characters, and
      changes nothing the second time. */
  lemma SanitizeProperties(name: string)
    ensures |Sanitize(name)| == |name|
    ensures forall i :: 0 <= i < |name| ==> FileNameChar(name[i]) ==> Sanitize(name)[i] == name[i]
    ensures forall i :: 0 <= i < |name| ==> !FileNameChar(name[i]) ==> Sanitize(name)[i] == '_'
    ensures forall i :: 0 <= i < |name| ==> FileNameChar(Sanitize(name)[i])
    ensures Sanitize(Sanitize(name)) == Sanitize(name)
  {
  }

  /** The cache file's name within the directory. */
  function CacheFileName(objectName: string): (r: string)
    ensures HasSuffix(r, ".json")
  {
    Sanitize(objectName) + ".json"
  }

  /** `getCacheFilePath`: the directory joined with the file name. */
  function CacheFilePath(dir: string, objectName: string): string {
    dir + "/" + CacheFileName(objectName)
  }

  /** Names that differ only in disallowed characters share a file: "M 31"
      and "M_31" are cached under the same name. */
  lemma SanitizeCollides()
    ensures CacheFileName("M 31") == CacheFileName("M_31")
  {
    assert Sanitize("M 31") == "M_31";
    assert Sanitize("M_31") == "M_31";
  }

  // --------------------------------------------------- directory as a map

  /** What `Get` returns for the file `key` of directory `files` at `now`:
      the version is checked before the age. */
  function Lookup(files: map<string, DirEntry>, key: string, now: Instant): Result<Option<ImageInfo>, CacheError> {
    if key !in files then Err(Miss)
    else match files[key]
      case Directory => Err(ReadFailed)
      case File(Undecodable) => Err(DecodeFailed)
      case File(Decoded(e)) =>
        if e.version != CacheVersion then Err(VersionMismatch)
        else if Sub(now, e.timestamp) > MaxAge then Err(Stale)
        else Ok(e.imageInfo)
  }

  /** The directory after `Set(objectName, info)` at `now`. */
  function Store(files: map<string, DirEntry>, objectName: string, info: Option<ImageInfo>, now: Instant): map<string, DirEntry> {
    files[CacheFileName(objectName) := File(Decoded(CacheEntry(CacheVersion, now, objectName, info)))]
  }

  /** The entries `Size` counts and `Clear` removes: files whose name ends
      in ".json". */
  predicate IsCacheFile(files: map<string, DirEntry>, n: string) {
    n in files && files[n].File? && HasSuffix(n, ".json")
  }

  function CacheFiles(files: map<string, DirEntry>): set<string> {
    set n | n in files && IsCacheFile(files, n)
  }

  /** The directory after `Clear`: everything but the cache files. */
  function Cleared(files: map<string, DirEntry>): map<string, DirEntry> {
    map n | n in files && !IsCacheFile(files, n) :: files[n]
  }

  /** A name with no file is a miss. */
  lemma LookupAbsent(files: map<string, DirEntry>, objectName: string, now: Instant)
    requires CacheFileName(objectName) !in files
    ensures Lookup(files, CacheFileName(objectName), now) == Err(Miss)
  {
  }

  /** After `Set`, `Get` of the same name returns the stored info until it
      is more than 30 days old, and reports it stale after; the file of any
      other name reads as before. */
  lemma LookupAfterStore(files: map<string, DirEntry>, objectName: string, info: Option<ImageInfo>, t: Instant, now: Instant, other: string)
    ensures Sub(now, t) <= MaxAge ==> Lookup(Store(files, objectName, info, t), CacheFileName(objectName), now) == Ok(info)
    ensures Sub(now, t) > MaxAge ==> Lookup(Store(files, objectName, info, t), CacheFileName(objectName), now) == Err(Stale)
    ensures CacheFileName(other) != CacheFileName(objectName) ==>
      Lookup(Store(files, objectName, info, t), CacheFileName(other), now) == Lookup(files, CacheFileName(other), now)
  {
  }

  /** A wrong version is reported as such however old the entry is. */
  lemma LookupChecksVersionFirst(files: map<string, DirEntry>, key: string, e: CacheEntry, now: Instant)
    requires key in files && files[key] == File(Decoded(e)) && e.version != CacheVersion
    ensures Lookup(files, key, now) == Err(VersionMismatch)
  {
  }

  /** `Clear` removes exactly the cache files: afterwards none is left, and
      every other entry is kept with its contents. */
  lemma ClearedContents(files: map<string, DirEntry>)
    ensures CacheFiles(Cleared(files)) == {}
    ensures forall n :: n in files && !IsCacheFile(files, n) ==> n in Cleared(files) && Cleared(files)[n] == files[n]
    ensures forall n :: IsCacheFile(files, n) ==> n !in Cleared(files)
  {
  }

  /** The cache directory `NewImageCache(dir)` uses; `home` is
      `os.UserHomeDir()`. */
  function CacheDir(dir: string, home: string): string {
    if dir == "" then home + "/.cache/skyterm/images" else dir
  }

  class ImageCache {
    const dir: string
    var files: map<string, DirEntry>

    /** `NewImageCache(dir)` over a directory that holds `contents`. */
    constructor (d: string, home: string, contents: map<string, DirEntry>)
      ensures dir == CacheDir(d, home) && files == contents
    {
      dir := CacheDir(d, home);
      files := contents;
    }

    /** `(*ImageCache).Get(objectName)` at `now`. */
    method Get(objectName: string, now: Instant) returns (r: Result<Option<ImageInfo>, CacheError>)
      ensures r == Lookup(files, CacheFileName(objectName), now)
    {
      var cacheFile := CacheFileName(objectName);
      if cacheFile !in files {
        return Err(Miss);
      }
      if files[cacheFile].Directory? {
        return Err(ReadFailed);
      }
      if files[cacheFile].data.Undecodable? {
        return Err(DecodeFailed);
      }
      var entry := files[cacheFile].data.entry;
      if entry.version != CacheVersion {
        return Err(VersionMismatch);
      }
      if Sub(now, entry.timestamp) > MaxAge {
        return Err(Stale);
      }
      return Ok(entry.imageInfo);
    }

    /** `(*ImageCache).Set(objectName, info)` at `now`. */
    method Set(objectName: string, info: Option<ImageInfo>, now: Instant)
      modifies this
      ensures files == Store(old(files), objectName, info, now)
    {
      var entry := CacheEntry(CacheVersion, now, objectName, info);
      var cacheFile := CacheFileName(objectName);
      files := files[cacheFile := File(Decoded(entry))];
    }

    /** `(*ImageCache).Clear()`: removes the cache files one by one. */
    method Clear()
      modifies this
      ensures files == Cleared(old(files))
    {
      var listed := files;
      var entries := files.Keys;
      while entries != {}
        invariant listed == old(files)
        invariant entries <= old(files).Keys
        invariant forall k :: k in files <==> k in old(files) && !(k !in entries && IsCacheFile(old(files), k))
        invariant forall k :: k in files ==> files[k] == old(files)[k]
        decreases |entries|
      {
        var n :| n in entries;
        if listed[n].File? && HasSuffix(n, ".json") {
          files := files - {n};
        }
        entries := entries - {n};
      }
      assert files.Keys == Cleared(old(files)).Keys;
    }

    /** `(*ImageCache).Size()`. */
    method Size() returns (count: int)
      ensures count == |CacheFiles(files)|
    {
      var entries := files.Keys;
      count := 0;
      while entries != {}
        invariant entries <= files.Keys
        invariant count == |CacheFiles(files) - entries|
        decreases |entries|
      {
        var n :| n in entries;
        if files[n].File? && HasSuffix(n, ".json") {
          assert CacheFiles(files) - (entries - {n}) == (CacheFiles(files) - entries) + {n};
          count := count + 1;
        } else {
          assert CacheFiles(files) - (entries - {n}) == CacheFiles(files) - entries;
        }
        entries := entries - {n};
      }
    }
  }

  /** After `Clear`, `Size` is 0. */
  lemma SizeAfterClear(files: map<string, DirEntry>)
    ensures |CacheFiles(Cleared(files))| == 0
  {
    ClearedContents(files);
  }
}
