/** The cache store: the file system seen as a map from paths to contents,
    with the existence, read, write and remove operations the layer uses
    (`fileExist`, `os.ReadFile`, `os.WriteFile`, `fileRemove`,
    `RemoveCache`). */
module CacheStore {
  import opened Types
  import opened CacheKey

  /** The regular files by path, and two switches: the cache directory
      cannot be read, or cannot be modified (writes and removals fail). */
  datatype Disk = Disk(files: map<string, string>, readFails: bool, writeFails: bool)

  /** The disk after a modifying operation, and the error it returned. */
  datatype Update = Update(disk: Disk, err: Option<Error>)

  /** `fileExist`: `os.Stat` succeeds. The empty path never names a file,
      and a missing path (the only stat failure modelled) counts as absent. */
  predicate FileExist(d: Disk, name: string)
  {
    name != "" && name in d.files
  }

  /** `os.ReadFile`: the stored bytes, or an error for a missing file or an
      unreadable directory. */
  function ReadFile(d: Disk, name: string): (r: Result)
    ensures r.Ok? <==> FileExist(d, name) && !d.readFails
    ensures r.Ok? ==> r.body == d.files[name]
    ensures r.Err? ==> r.error == ReadError
  {
    if FileExist(d, name) && !d.readFails then Ok(d.files[name]) else Err(ReadError)
  }

  /** `os.WriteFile` (create or truncate). */
  function WriteFile(d: Disk, name: string, data: string): (u: Update)
    ensures u.err.None? <==> name != "" && !d.writeFails
    ensures u.err.None? ==> u.disk == d.(files := d.files[name := data])
    ensures u.err.Some? ==> u.disk == d && u.err.value == WriteError
  {
    if name == "" || d.writeFails then Update(d, Some(WriteError))
    else Update(d.(files := d.files[name := data]), None)
  }

  /** `os.Remove`: fails for a missing file or an unmodifiable directory. */
  function Remove(d: Disk, name: string): (u: Update)
    ensures u.err.None? <==> FileExist(d, name) && !d.writeFails
    ensures u.err.None? ==> u.disk == d.(files := d.files - {name})
    ensures u.err.Some? ==> u.disk == d && u.err.value == RemoveError
  {
    if !FileExist(d, name) || d.writeFails then Update(d, Some(RemoveError))
    else Update(d.(files := d.files - {name}), None)
  }

  /** `fileRemove`: succeeds without change for an empty or absent name;
      otherwise it is `os.Remove`, which deletes exactly that entry. */
  function FileRemove(d: Disk, name: string): (u: Update)
    ensures !FileExist(d, name) ==> u == Update(d, None)
    ensures u.err.None? ==> !FileExist(u.disk, name)
    ensures FileExist(d, name) && !d.writeFails ==> u == Update(d.(files := d.files - {name}), None)
    ensures u.err.Some? ==> u.disk == d && d.writeFails
    ensures FileExist(d, name) && d.writeFails ==> u == Update(d, Some(RemoveError))
  {
    if |name| > 0 && FileExist(d, name) then Remove(d, name) else Update(d, None)
  }

  /** `RemoveCache`: removes the entry a GET of `url` without arguments uses. */
  function RemoveCache(cfg: Config, d: Disk, url: string): (u: Update)
    ensures var key := CacheName(cfg, GET, url, []);
      && (u.err.None? ==> !FileExist(u.disk, key))
      && (u.err.None? && FileExist(d, key) ==> u.disk == d.(files := d.files - {key}))
      && (u.err.Some? ==> u.disk == d)
      && (!FileExist(d, key) ==> u == Update(d, None))
      && (FileExist(d, key) && !d.writeFails ==> u == Update(d.(files := d.files - {key}), None))
      && (FileExist(d, key) && d.writeFails ==> u == Update(d, Some(RemoveError)))
  {
    FileRemove(d, CacheName(cfg, GET, url, []))
  }

  /** Reading back what a successful write stored gives the written bytes. */
  lemma ReadAfterWrite(d: Disk, name: string, data: string)
    requires !d.readFails
    ensures var u := WriteFile(d, name, data);
      u.err.None? ==> FileExist(u.disk, name) && ReadFile(u.disk, name) == Ok(data)
  {
  }

  /** A write touches no other entry. */
  lemma WriteKeepsOthers(d: Disk, name: string, data: string, other: string)
    requires other != name
    ensures var u := WriteFile(d, name, data);
      FileExist(u.disk, other) == FileExist(d, other) && ReadFile(u.disk, other) == ReadFile(d, other)
  {
  }
}
