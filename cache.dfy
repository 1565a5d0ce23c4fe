/** The file-backed cache of actions and observations. The file system is a `Disk` object
    holding whether the cache directory exists and the content of each file; a file either
    parses as a JSON object of cache entries or does not parse. */
module Cache {
  import opened Wrappers

  /** One cached value, stored on disk as `{"id": ..., "result": ...}`. */
  datatype CacheValue = CacheValue(id: string, result: string)

  datatype FileContent = Parsed(entries: map<string, CacheValue>) | Corrupt

  const CacheDir: string := ".cache"
  const ObservationsPath: string := "./.cache/observations.json"
  const ActionsPath: string := "./.cache/actions.json"

  class Disk {
    var cacheDirExists: bool
    var files: map<string, FileContent>

    constructor(cacheDirExists: bool, files: map<string, FileContent>)
      requires !cacheDirExists ==> ActionsPath !in files && ObservationsPath !in files
      ensures this.cacheDirExists == cacheDirExists && this.files == files
      ensures Valid()
    {
      this.cacheDirExists := cacheDirExists;
      this.files := files;
    }

    /** A file system cannot hold a store under a directory that does not exist. */
    predicate Valid()
      reads this
    {
      !cacheDirExists ==> ActionsPath !in files && ObservationsPath !in files
    }
  }

  /** What reading a store yields: its entries, or nothing when the file is missing or does
      not parse (the read error is reported and swallowed). */
  function ReadStore(files: map<string, FileContent>, path: string): (r: map<string, CacheValue>)
    ensures path !in files || files[path].Corrupt? ==> r == map[]
  {
    if path in files && files[path].Parsed? then files[path].entries else map[]
  }

  /** The files after a read-modify-write of one entry into the store at `path`: that store
      reads back as before with `key` set to `value`, and no other file changes. */
  function WriteStore(files: map<string, FileContent>, path: string, key: string, value: CacheValue)
    : (r: map<string, FileContent>)
    ensures ReadStore(r, path) == ReadStore(files, path)[key := value]
    ensures ReadStore(r, path)[key] == value
    ensures forall k :: k != key && k in ReadStore(files, path) ==>
      k in ReadStore(r, path) && ReadStore(r, path)[k] == ReadStore(files, path)[k]
    ensures r.Keys == files.Keys + {path}
    ensures forall q :: q != path && q in files ==> r[q] == files[q]
  {
    files[path := Parsed(ReadStore(files, path)[key := value])]
  }

  /** The files after initialisation: each store that does not exist is created empty, and
      every existing file, even one that does not parse, is kept as it is. */
  function InitFiles(files: map<string, FileContent>): (r: map<string, FileContent>)
    ensures r.Keys == files.Keys + {ActionsPath, ObservationsPath}
    ensures forall p :: p in files ==> r[p] == files[p]
    ensures forall p :: p in r && p !in files ==> r[p] == Parsed(map[])
  {
    var withActions := if ActionsPath in files then files else files[ActionsPath := Parsed(map[])];
    if ObservationsPath in withActions then withActions else withActions[ObservationsPath := Parsed(map[])]
  }

  class Cache {
    const disabled: bool
    const disk: Disk

    /** A cache that is not disabled makes sure its directory and both stores exist. */
    constructor(disk: Disk, disabled: bool := false)
      requires disk.Valid()
      modifies disk
      ensures disk.Valid()
      ensures this.disabled == disabled && this.disk == disk
      ensures disabled ==> disk.cacheDirExists == old(disk.cacheDirExists) && disk.files == old(disk.files)
      ensures !disabled ==> disk.cacheDirExists && disk.files == InitFiles(old(disk.files))
    {
      this.disabled := disabled;
      this.disk := disk;
      new;
      if !disabled {
        InitCache();
      }
    }

    /** `_init_cache`: create the directory and each missing store; nothing when disabled. */
    method InitCache()
      requires disk.Valid()
      modifies disk
      ensures disk.Valid()
      ensures disabled ==> disk.cacheDirExists == old(disk.cacheDirExists) && disk.files == old(disk.files)
      ensures !disabled ==> disk.cacheDirExists && disk.files == InitFiles(old(disk.files))
    {
      if disabled {
        return;
      }
      if !disk.cacheDirExists {
        disk.cacheDirExists := true;
      }
      if ActionsPath !in disk.files {
        disk.files := disk.files[ActionsPath := Parsed(map[])];
      }
      if ObservationsPath !in disk.files {
        disk.files := disk.files[ObservationsPath := Parsed(map[])];
      }
    }

    function ReadObservations(): (r: map<string, CacheValue>)
      reads this, disk
      ensures disabled ==> r == map[]
      ensures !disabled ==> r == ReadStore(disk.files, ObservationsPath)
      ensures disk.Valid() && !disk.cacheDirExists ==> r == map[]
    {
      if disabled then map[] else ReadStore(disk.files, ObservationsPath)
    }

    function ReadActions(): (r: map<string, CacheValue>)
      reads this, disk
      ensures disabled ==> r == map[]
      ensures !disabled ==> r == ReadStore(disk.files, ActionsPath)
      ensures disk.Valid() && !disk.cacheDirExists ==> r == map[]
    {
      if disabled then map[] else ReadStore(disk.files, ActionsPath)
    }

    /** Read the store at `path`, set one entry, and write the store back. Writing fails,
        and changes nothing, when the cache directory does not exist. */
    method WriteAt(path: string, key: string, value: CacheValue) returns (error: Option<string>)
      requires path == ObservationsPath || path == ActionsPath
      requires disk.Valid()
      modifies disk
      ensures disk.Valid()
      ensures disk.cacheDirExists == old(disk.cacheDirExists)
      ensures disabled ==> disk.files == old(disk.files) && error == None
      ensures !disabled && old(disk.cacheDirExists) ==>
        disk.files == WriteStore(old(disk.files), path, key, value) && error == None
      ensures !disabled && !old(disk.cacheDirExists) ==>
        disk.files == old(disk.files) && error == Some("FileNotFoundError: " + path)
    {
      if disabled {
        return None;
      }
      var store := if path == ObservationsPath then ReadObservations() else ReadActions();
      store := store[key := value];
      if !disk.cacheDirExists {
        return Some("FileNotFoundError: " + path);
      }
      disk.files := disk.files[path := Parsed(store)];
      return None;
    }

    method WriteObservations(key: string, value: CacheValue) returns (error: Option<string>)
      requires disk.Valid()
      modifies disk
      ensures disk.Valid()
      ensures disk.cacheDirExists == old(disk.cacheDirExists)
      ensures disabled ==> disk.files == old(disk.files) && error == None
      ensures !disabled && old(disk.cacheDirExists) ==>
        disk.files == WriteStore(old(disk.files), ObservationsPath, key, value) && error == None
      ensures !disabled && !old(disk.cacheDirExists) ==> disk.files == old(disk.files) && error.Some?
    {
      error := WriteAt(ObservationsPath, key, value);
    }

    method WriteActions(key: string, value: CacheValue) returns (error: Option<string>)
      requires disk.Valid()
      modifies disk
      ensures disk.Valid()
      ensures disk.cacheDirExists == old(disk.cacheDirExists)
      ensures disabled ==> disk.files == old(disk.files) && error == None
      ensures !disabled && old(disk.cacheDirExists) ==>
        disk.files == WriteStore(old(disk.files), ActionsPath, key, value) && error == None
      ensures !disabled && !old(disk.cacheDirExists) ==> disk.files == old(disk.files) && error.Some?
    {
      error := WriteAt(ActionsPath, key, value);
    }

    /** `evict_cache` is not implemented and always raises. */
    method EvictCache() returns (error: string)
      ensures error == "NotImplementedError: implement me"
    {
      error := "NotImplementedError: implement me";
    }
  }

  /** Writing the same key twice keeps the last value. */
  lemma LastWriteWins(files: map<string, FileContent>, path: string, key: string, v1: CacheValue, v2: CacheValue)
    ensures WriteStore(WriteStore(files, path, key, v1), path, key, v2) == WriteStore(files, path, key, v2)
  {
    var store := ReadStore(files, path);
    assert ReadStore(WriteStore(files, path, key, v1), path) == store[key := v1];
    assert store[key := v1][key := v2] == store[key := v2];
  }

  /** Writes to different keys of one store commute. */
  lemma WritesCommute(files: map<string, FileContent>, path: string, k1: string, v1: CacheValue,
                      k2: string, v2: CacheValue)
    requires k1 != k2
    ensures WriteStore(WriteStore(files, path, k1, v1), path, k2, v2) ==
            WriteStore(WriteStore(files, path, k2, v2), path, k1, v1)
  {
    var store := ReadStore(files, path);
    assert store[k1 := v1][k2 := v2] == store[k2 := v2][k1 := v1];
  }

  /** The two stores are independent: writing one leaves what the other reads unchanged. */
  lemma StoresIndependent(files: map<string, FileContent>, key: string, value: CacheValue)
    ensures ReadStore(WriteStore(files, ActionsPath, key, value), ObservationsPath) == ReadStore(files, ObservationsPath)
    ensures ReadStore(WriteStore(files, ObservationsPath, key, value), ActionsPath) == ReadStore(files, ActionsPath)
  {
    assert ActionsPath != ObservationsPath by {
      assert ActionsPath[10] != ObservationsPath[10];
    }
  }

  /** Initialising an initialised disk changes nothing, and a fresh store reads as empty. */
  lemma InitIdempotent(files: map<string, FileContent>)
    ensures InitFiles(InitFiles(files)) == InitFiles(files)
    ensures ActionsPath !in files ==> ReadStore(InitFiles(files), ActionsPath) == map[]
    ensures ObservationsPath !in files ==> ReadStore(InitFiles(files), ObservationsPath) == map[]
  {
  }

  /** A store that does not parse reads as empty, so writing one entry into it leaves a
      store holding that entry alone. */
  lemma CorruptStoreIsReplaced(files: map<string, FileContent>, path: string, key: string, value: CacheValue)
    requires path in files && files[path].Corrupt?
    ensures WriteStore(files, path, key, value)[path] == Parsed(map[key := value])
  {
  }

  /** A disabled cache leaves the disk alone at construction, reads nothing and writes nothing. */
  method DisabledCacheIsInert(disk: Disk, key: string, value: CacheValue)
    requires disk.Valid()
    modifies disk
    ensures disk.cacheDirExists == old(disk.cacheDirExists) && disk.files == old(disk.files)
  {
    var c := new Cache(disk, true);
    assert c.ReadActions() == map[] && c.ReadObservations() == map[];
    var e1 := c.WriteActions(key, value);
    var e2 := c.WriteObservations(key, value);
    assert e1 == None && e2 == None;
  }

  /** A write then a read through an enabled cache gives back the value written. */
  method WriteThenRead(disk: Disk, key: string, value: CacheValue) returns (read: CacheValue)
    requires disk.Valid()
    modifies disk
    ensures read == value
  {
    var c := new Cache(disk);
    var e := c.WriteActions(key, value);
    read := c.ReadActions()[key];
  }
}
