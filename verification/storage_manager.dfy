/**
 * The in-memory index of StorageManager (src/storage_manager.cpp): the `files_` map from
 * id to metadata, the stored-file naming scheme `id + "_" + filename` and its inverse used
 * when the index is rebuilt from the storage directory. Directory listings and file-system
 * outcomes are parameters; the clock is the `now` timestamp text.
 */
module Storage {
  import opened Wrappers
  import opened Text
  import opened HexId

  /** StorageMetadata; `size` is a size_t. */
  datatype StorageMetadata = StorageMetadata(
    id: string,
    filename: string,
    contentType: string,
    size: nat,
    path: string,
    createdAt: string)

  /** The name a stored file gets in the storage directory. */
  function StoredName(id: string, filename: string): string {
    id + "_" + filename
  }

  /** The start-up split of a directory entry's name at its first '_': (id, filename). */
  function SplitStoredName(name: string): (r: Option<(string, string)>)
    ensures r.None? <==> '_' !in name
    ensures r.Some? ==> '_' !in r.value.0 && StoredName(r.value.0, r.value.1) == name
  {
    match FindChar(name, '_')
    case None => None
    case Some(i) =>
      assert name == name[..i] + "_" + name[i + 1..];
      Some((name[..i], name[i + 1..]))
  }

  /**
   * Round trip: a name built from an id without '_' splits back into that id and file
   * name, even when the file name itself contains '_'.
   */
  lemma SplitStoredNameOfStored(id: string, filename: string)
    requires '_' !in id
    ensures SplitStoredName(StoredName(id, filename)) == Some((id, filename))
  {
    var name := StoredName(id, filename);
    FindCharAt(id, '_', filename);
    assert name[..|id|] == id && name[|id| + 1..] == filename;
  }

  /** Generated ids contain no '_', so every name the manager writes splits back exactly. */
  lemma GeneratedNameSplits(id: string, filename: string)
    requires IsHexId(id)
    ensures SplitStoredName(StoredName(id, filename)) == Some((id, filename))
  {
    HexIdHasNoSeparator(id);
    SplitStoredNameOfStored(id, filename);
  }

  /**
   * One entry of the storage directory: its name, whether it is a regular file, and what
   * `fs::file_size` reports for it (the size or the exception text).
   */
  datatype DirEntry = DirEntry(name: string, regular: bool, size: Result<nat, string>)

  /** The state of the base path when the manager starts. */
  datatype BaseDir = Missing(created: bool) | Directory | NotADirectory

  /**
   * The index after the directory loop of `initialize` visits `entries` from `files`:
   * entries that are not regular files or whose name has no '_' are skipped, a repeated id
   * overwrites the earlier entry, and a `file_size` that throws ends the loop (false).
   */
  function Index(files: map<string, StorageMetadata>, basePath: string, entries: seq<DirEntry>, now: string)
    : (map<string, StorageMetadata>, bool)
    decreases |entries|
  {
    if entries == [] then (files, true)
    else
      var e := entries[0];
      if !e.regular then Index(files, basePath, entries[1..], now)
      else match SplitStoredName(e.name)
        case None => Index(files, basePath, entries[1..], now)
        case Some((id, filename)) =>
          match e.size
          case Failure(_) => (files, false)
          case Success(n) =>
            Index(files[id := StorageMetadata(id, filename, "", n, JoinPath(basePath, e.name), now)],
                  basePath, entries[1..], now)
  }

  /** One step of the directory loop, at position `i`. */
  lemma IndexStep(files: map<string, StorageMetadata>, basePath: string, entries: seq<DirEntry>, i: nat, now: string)
    requires i < |entries|
    ensures var e := entries[i];
      Index(files, basePath, entries[i..], now) ==
        if !e.regular || '_' !in e.name then Index(files, basePath, entries[i + 1..], now)
        else
          var pos := FindChar(e.name, '_').value;
          if e.size.Failure? then (files, false)
          else Index(files[e.name[..pos] := StorageMetadata(e.name[..pos], e.name[pos + 1..], "", e.size.value,
                                                           JoinPath(basePath, e.name), now)],
                     basePath, entries[i + 1..], now)
  {
    assert entries[i..][0] == entries[i] && entries[i..][1..] == entries[i + 1..];
  }

  /** Every entry is filed under its own id. */
  ghost predicate Keyed(files: map<string, StorageMetadata>) {
    forall id :: id in files ==> files[id].id == id
  }

  /** Rebuilding the index keeps every entry filed under its own id. */
  lemma {:induction false} IndexKeyed(files: map<string, StorageMetadata>, basePath: string, entries: seq<DirEntry>, now: string)
    requires Keyed(files)
    ensures Keyed(Index(files, basePath, entries, now).0)
    decreases |entries|
  {
    if entries != [] {
      var e := entries[0];
      if e.regular && SplitStoredName(e.name).Some? && e.size.Success? {
        var (id, filename) := SplitStoredName(e.name).value;
        var next := files[id := StorageMetadata(id, filename, "", e.size.value, JoinPath(basePath, e.name), now)];
        assert Keyed(next);
        IndexKeyed(next, basePath, entries[1..], now);
      } else if !e.regular || SplitStoredName(e.name).None? {
        IndexKeyed(files, basePath, entries[1..], now);
      }
    }
  }

  /**
   * What a restart recovers: a regular file stored under a generated id is registered
   * again under that id with its original file name, size and path; its content type is
   * not kept in the name and comes back empty.
   */
  lemma RestartRecoversStoredFile(files: map<string, StorageMetadata>, basePath: string, id: string,
                                  filename: string, size: nat, now: string)
    requires IsHexId(id)
    ensures var name := StoredName(id, filename);
      Index(files, basePath, [DirEntry(name, true, Success(size))], now) ==
        (files[id := StorageMetadata(id, filename, "", size, JoinPath(basePath, name), now)], true)
  {
    GeneratedNameSplits(id, filename);
  }

  /** `order` lists every id of the index exactly once: an iteration order of the unordered_map. */
  ghost predicate IsKeyOrder(order: seq<string>, files: map<string, StorageMetadata>) {
    && (forall i, j :: 0 <= i < j < |order| ==> order[i] != order[j])
    && (forall i :: 0 <= i < |order| ==> order[i] in files)
    && (forall id :: id in files ==> id in order)
  }

  /** The metadata of the ids in `order`, in that order. */
  function Listed(files: map<string, StorageMetadata>, order: seq<string>): seq<StorageMetadata>
    decreases |order|
  {
    if order == [] then []
    else (if order[0] in files then [files[order[0]]] else []) + Listed(files, order[1..])
  }

  lemma {:induction false} ListedSnoc(files: map<string, StorageMetadata>, order: seq<string>, id: string)
    requires id in files
    ensures Listed(files, order + [id]) == Listed(files, order) + [files[id]]
    decreases |order|
  {
    if order == [] {
      assert order + [id] == [id];
    } else {
      var head := if order[0] in files then [files[order[0]]] else [];
      assert (order + [id])[0] == order[0];
      assert (order + [id])[1..] == order[1..] + [id];
      assert Listed(files, order + [id]) == head + Listed(files, order[1..] + [id]);
      ListedSnoc(files, order[1..], id);
      assert head + (Listed(files, order[1..]) + [files[id]]) == (head + Listed(files, order[1..])) + [files[id]];
    }
  }

  lemma {:induction false} DistinctCardinality(order: seq<string>)
    requires forall i, j :: 0 <= i < j < |order| ==> order[i] != order[j]
    ensures |set x | x in order| == |order|
    decreases |order|
  {
    if order != [] {
      DistinctCardinality(order[1..]);
      var rest := set x | x in order[1..];
      assert (set x | x in order) == rest + {order[0]};
      assert order[0] !in rest;
    }
  }

  lemma {:induction false} ListedLength(files: map<string, StorageMetadata>, order: seq<string>)
    requires forall i :: 0 <= i < |order| ==> order[i] in files
    ensures |Listed(files, order)| == |order|
    decreases |order|
  {
    if order != [] {
      ListedLength(files, order[1..]);
    }
  }

  lemma {:induction false} ListedContains(files: map<string, StorageMetadata>, order: seq<string>, i: nat)
    requires i < |order| && order[i] in files
    ensures files[order[i]] in Listed(files, order)
    decreases |order|
  {
    if i > 0 {
      ListedContains(files, order[1..], i - 1);
    }
  }

  /** A listing in key order has exactly one element per entry of the index. */
  lemma ListingOnePerEntry(files: map<string, StorageMetadata>, order: seq<string>)
    requires IsKeyOrder(order, files)
    ensures |Listed(files, order)| == |files|
    ensures forall id :: id in files ==> files[id] in Listed(files, order)
  {
    ListedLength(files, order);
    DistinctCardinality(order);
    assert (set x | x in order) == files.Keys;
    forall id | id in files ensures files[id] in Listed(files, order) {
      var i :| 0 <= i < |order| && order[i] == id;
      ListedContains(files, order, i);
    }
  }

  /** StorageManager: the base directory and the index. */
  class StorageManager {
    var basePath: string
    var files: map<string, StorageMetadata>

    ghost predicate Valid()
      reads this
    {
      Keyed(files)
    }

    /** The singleton before `initialize`: no base path, an empty index. */
    constructor ()
      ensures basePath == "" && files == map[]
      ensures Valid()
    {
      basePath := "";
      files := map[];
    }

    /**
     * `initialize`: check or create the base directory, then index its entries on top of
     * what the index already holds. A `file_size` that throws makes it return false with
     * the base path set and the entries before it indexed.
     */
    method Initialize(path: string, dir: BaseDir, entries: seq<DirEntry>, now: string) returns (ok: bool)
      modifies this
      requires Valid()
      ensures Valid()
      ensures dir == Missing(false) || dir == NotADirectory ==>
        !ok && basePath == old(basePath) && files == old(files)
      ensures dir == Missing(true) || dir == Directory ==>
        basePath == path && (files, ok) == Index(old(files), path, entries, now)
    {
      if dir == Missing(false) || dir == NotADirectory {
        return false;
      }
      basePath := path;
      IndexKeyed(files, path, entries, now);
      var i := 0;
      while i < |entries|
        invariant 0 <= i <= |entries| && basePath == path
        invariant Index(files, path, entries[i..], now) == Index(old(files), path, entries, now)
      {
        var entry := entries[i];
        IndexStep(files, path, entries, i, now);
        if entry.regular {
          var pos := FindChar(entry.name, '_');
          if pos.Some? {
            var id := entry.name[..pos.value];
            var metadataFilename := entry.name[pos.value + 1..];
            var metadataPath := JoinPath(basePath, entry.name);
            if entry.size.Failure? {
              return false;
            }
            files := files[id := StorageMetadata(id, metadataFilename, "", entry.size.value, metadataPath, now)];
          }
        }
        i := i + 1;
      }
      return true;
    }

    /**
     * `storeData`: refuse when there is no usable base directory (`basePathExists` is what
     * `fs::exists` reports) or the file cannot be created and written (`written`); otherwise
     * file the new metadata under a fresh generated id.
     */
    method StoreData(data: seq<bv8>, filename: string, contentType: string, basePathExists: bool,
                     written: bool, now: string) returns (r: Option<StorageMetadata>)
      modifies this
      requires Valid()
      ensures Valid() && basePath == old(basePath)
      ensures r.None? <==> old(basePath) == "" || !basePathExists || !written
      ensures r.None? ==> files == old(files)
      ensures r.Some? ==> IsHexId(r.value.id) && files == old(files)[r.value.id := r.value]
      ensures r.Some? ==> r.value == StorageMetadata(r.value.id, filename, contentType, |data|,
                                                      JoinPath(basePath, StoredName(r.value.id, filename)), now)
    {
      if basePath == "" || !basePathExists {
        return None;
      }
      var id := RandomHexId();
      var storedFilename := id + "_" + filename;
      var filePath := JoinPath(basePath, storedFilename);
      if !written {
        return None;
      }
      var metadata := StorageMetadata(id, filename, contentType, |data|, filePath, now);
      files := files[id := metadata];
      return Some(metadata);
    }

    /** `getMetadata`: the entry for the id, or None (nullptr). */
    function GetMetadata(id: string): (r: Option<StorageMetadata>)
      reads this
      ensures r.Some? <==> id in files
      ensures r.Some? ==> r.value == files[id]
      ensures r.Some? && Valid() ==> r.value.id == id
    {
      if id in files then Some(files[id]) else None
    }

    /** `getFilePath`: the entry's path, or "" when the id is unknown. */
    function GetFilePath(id: string): (p: string)
      reads this
      ensures id in files ==> p == files[id].path
      ensures id !in files ==> p == ""
    {
      match GetMetadata(id)
      case Some(metadata) => metadata.path
      case None => ""
    }

    /**
     * `deleteFile`: an unknown id gives false; a known one is erased (whether or not its file
     * was still on disk) unless the file system throws (`fsError`), which keeps it.
     */
    method DeleteFile(id: string, fsError: bool) returns (ok: bool)
      modifies this
      requires Valid()
      ensures Valid() && basePath == old(basePath)
      ensures ok <==> id in old(files) && !fsError
      ensures ok ==> files == old(files) - {id}
      ensures !ok ==> files == old(files)
    {
      if id !in files {
        return false;
      }
      if fsError {
        return false;
      }
      files := files - {id};
      return true;
    }

    /** `listFiles`: every entry's metadata once, in the map's iteration order. */
    method ListFiles() returns (result: seq<StorageMetadata>)
      ensures exists order :: IsKeyOrder(order, files) && result == Listed(files, order)
    {
      result := [];
      var remaining := files.Keys;
      ghost var order: seq<string> := [];
      while remaining != {}
        invariant remaining <= files.Keys
        invariant forall i, j :: 0 <= i < j < |order| ==> order[i] != order[j]
        invariant forall i :: 0 <= i < |order| ==> order[i] in files && order[i] !in remaining
        invariant forall id :: id in files ==> id in remaining || id in order
        invariant result == Listed(files, order)
        decreases remaining
      {
        var id :| id in remaining;
        ListedSnoc(files, order, id);
        result := result + [files[id]];
        order := order + [id];
        remaining := remaining - {id};
      }
      assert IsKeyOrder(order, files);
    }
  }

  /** A stored file is found again by id, at a path ending in its stored name. */
  lemma StoredFileIsFound(m: StorageManager, metadata: StorageMetadata, filename: string)
    requires metadata.id in m.files && m.files[metadata.id] == metadata
    requires metadata.filename == filename && IsHexId(metadata.id)
    requires metadata.path == JoinPath(m.basePath, StoredName(metadata.id, filename))
    ensures m.GetMetadata(metadata.id) == Some(metadata)
    ensures EndsWith(m.GetFilePath(metadata.id), StoredName(metadata.id, filename))
  {
  }
}
