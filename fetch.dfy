/** The retrying fetcher (`doRequest`, `Get`, `Post`) as a function of the
    configuration, the disk, the transport script and the number of
    transport calls made so far. It follows the Go recursion step by step,
    including the cache check that every recursive call repeats. */
module Fetch {
  import opened Types
  import opened CacheKey
  import opened CacheStore

  /** The result of one logical fetch, the disk afterwards, and the number
      of transport calls it made. */
  datatype Run = Run(result: Result, disk: Disk, used: nat)

  /** The request's cache entry exists, so the fetch is served from disk. */
  predicate Hit(cfg: Config, disk: Disk, m: Method, url: string, args: seq<Arg>)
  {
    var name := CacheName(cfg, m, url, args);
    name != "" && FileExist(disk, name)
  }

  /** How many retries are left at attempt counter `rc`. */
  function Budget(cfg: Config, rc: int): nat
  {
    if rc < cfg.retryCount then cfg.retryCount - rc else 0
  }

  /** Transport call `k` answers with a non-200 status. */
  predicate Rejected(script: seq<Outcome>, k: nat)
  {
    Answer(script, k).Resp? && Answer(script, k).status != 200
  }

  /** `doRequest(method, url, retryCount, v...)`, whose first transport
      call is call number `start` of the script: it makes no transport call
      exactly when the request's entry exists, and otherwise one call plus
      at most one per retry left. Its contract carries the call bound; the
      rest of its frame is `RequestFrame`. */
  function DoRequest(cfg: Config, disk: Disk, script: seq<Outcome>, start: nat,
                     m: Method, url: string, rc: int, args: seq<Arg>): (r: Run)
    ensures r.used <= Budget(cfg, rc) + 1
    decreases Budget(cfg, rc)
  {
    var name := CacheName(cfg, m, url, args);
    if name != "" && FileExist(disk, name) then
      Run(ReadFile(disk, name), disk, 0)
    else
      match Answer(script, start)
      case TransportErr => Run(Err(TransportError), disk, 1)
      case Resp(status, body) =>
        if status != 200 then
          if rc < cfg.retryCount then
            var rest := DoRequest(cfg, disk, script, start + 1, m, url, rc + 1, args);
            Run(rest.result, rest.disk, rest.used + 1)
          else
            Run(Err(StatusError(status)), disk, 1)
        else if name != "" then
          var w := WriteFile(disk, name, body);
          if w.err.Some? then Run(Err(WriteError), disk, 1) else Run(Ok(body), w.disk, 1)
        else
          Run(Ok(body), disk, 1)
  }

  /** `Get`: `doRequest` with the GET method and a fresh attempt counter;
      it never makes more than `defaultRetryCount + 1` transport calls. */
  function Get(cfg: Config, disk: Disk, script: seq<Outcome>, start: nat,
               url: string, args: seq<Arg>): (r: Run)
    ensures r.used <= Budget(cfg, 0) + 1
    ensures r.used == 0 <==> Hit(cfg, disk, GET, url, args)
  {
    RequestFrame(cfg, disk, script, start, GET, url, 0, args);
    DoRequest(cfg, disk, script, start, GET, url, 0, args)
  }

  /** `Post`: the same for the POST method. */
  function Post(cfg: Config, disk: Disk, script: seq<Outcome>, start: nat,
                url: string, args: seq<Arg>): (r: Run)
    ensures r.used <= Budget(cfg, 0) + 1
    ensures r.used == 0 <==> Hit(cfg, disk, POST, url, args)
  {
    RequestFrame(cfg, disk, script, start, POST, url, 0, args);
    DoRequest(cfg, disk, script, start, POST, url, 0, args)
  }

  /** For every input: a fetch leaves the disk alone unless it succeeds
      over the network, and then changes exactly the request's own entry,
      to the body it returns; it makes no transport call exactly on a cache
      hit. */
  lemma {:induction false} RequestFrame(cfg: Config, disk: Disk, script: seq<Outcome>, start: nat,
                                        m: Method, url: string, rc: int, args: seq<Arg>)
    ensures var r := DoRequest(cfg, disk, script, start, m, url, rc, args);
      var name := CacheName(cfg, m, url, args);
      && (r.used == 0 <==> Hit(cfg, disk, m, url, args))
      && (r.used == 0 || r.result.Err? ==> r.disk == disk)
      && (r.used > 0 && r.result.Ok? ==>
            r.disk == if name == "" then disk else disk.(files := disk.files[name := r.result.body]))
    decreases Budget(cfg, rc)
  {
    if !Hit(cfg, disk, m, url, args) && Rejected(script, start) && rc < cfg.retryCount {
      RequestFrame(cfg, disk, script, start + 1, m, url, rc + 1, args);
    }
  }

  /** A cache hit returns the stored bytes (or the read error), makes no
      transport call and leaves the disk unchanged. */
  lemma CacheHitShortCircuits(cfg: Config, disk: Disk, script: seq<Outcome>, start: nat,
                              m: Method, url: string, rc: int, args: seq<Arg>)
    requires Hit(cfg, disk, m, url, args)
    ensures var r := DoRequest(cfg, disk, script, start, m, url, rc, args);
      var name := CacheName(cfg, m, url, args);
      r.used == 0 && r.disk == disk &&
      r.result == (if disk.readFails then Err(ReadError) else Ok(disk.files[name]))
  {
  }

  /** A transport error ends the fetch after that one call, with no retry
      and no cache write. */
  lemma TransportErrorNoRetry(cfg: Config, disk: Disk, script: seq<Outcome>, start: nat,
                              m: Method, url: string, rc: int, args: seq<Arg>)
    requires !Hit(cfg, disk, m, url, args)
    requires Answer(script, start) == TransportErr
    ensures DoRequest(cfg, disk, script, start, m, url, rc, args) == Run(Err(TransportError), disk, 1)
  {
  }

  /** A transport that keeps rejecting is asked once plus once per retry
      left; the fetch then fails with the last status code and writes
      nothing. */
  lemma {:induction false} RetriesExhausted(cfg: Config, disk: Disk, script: seq<Outcome>, start: nat,
                                            m: Method, url: string, rc: int, args: seq<Arg>)
    requires !Hit(cfg, disk, m, url, args)
    requires forall k :: start <= k <= start + Budget(cfg, rc) ==> Rejected(script, k)
    ensures var last := Answer(script, start + Budget(cfg, rc));
      last.Resp? &&
      DoRequest(cfg, disk, script, start, m, url, rc, args)
        == Run(Err(StatusError(last.status)), disk, Budget(cfg, rc) + 1)
    decreases Budget(cfg, rc)
  {
    assert Rejected(script, start);
    if rc < cfg.retryCount {
      RetriesExhausted(cfg, disk, script, start + 1, m, url, rc + 1, args);
    }
  }

  /** `Get` and `Post` with a non-negative retry bound against a transport
      that always rejects: exactly `defaultRetryCount + 1` calls, a status
      error with the last code, no cache entry written. */
  lemma EntryRetriesExhausted(cfg: Config, disk: Disk, script: seq<Outcome>, start: nat,
                              m: Method, url: string, args: seq<Arg>)
    requires cfg.retryCount >= 0
    requires !Hit(cfg, disk, m, url, args)
    requires forall k :: start <= k <= start + cfg.retryCount ==> Rejected(script, k)
    ensures var r := DoRequest(cfg, disk, script, start, m, url, 0, args);
      var last := Answer(script, start + cfg.retryCount);
      last.Resp? && r.used == cfg.retryCount + 1 && r.disk == disk &&
      r.result == Err(StatusError(last.status))
  {
    RetriesExhausted(cfg, disk, script, start, m, url, 0, args);
  }

  /** When the first 200 comes after `k` rejections and `k` is within the
      retry budget, the fetch makes `k + 1` calls and returns that body;
      with caching on the body is written to the request's entry and
      nothing else changes, and a failing write turns the successful fetch
      into a write error. */
  lemma {:induction false} SucceedsAfterRetries(cfg: Config, disk: Disk, script: seq<Outcome>, start: nat,
                                                m: Method, url: string, rc: int, args: seq<Arg>,
                                                k: nat, body: string)
    requires !Hit(cfg, disk, m, url, args)
    requires k <= Budget(cfg, rc)
    requires forall j :: start <= j < start + k ==> Rejected(script, j)
    requires Answer(script, start + k) == Resp(200, body)
    ensures var r := DoRequest(cfg, disk, script, start, m, url, rc, args);
      var name := CacheName(cfg, m, url, args);
      && r.used == k + 1
      && (name == "" ==> r.result == Ok(body) && r.disk == disk)
      && (name != "" && !disk.writeFails ==>
            r.result == Ok(body) && r.disk == disk.(files := disk.files[name := body]))
      && (name != "" && disk.writeFails ==> r.result == Err(WriteError) && r.disk == disk)
    decreases k
  {
    if k > 0 {
      assert Rejected(script, start);
      SucceedsAfterRetries(cfg, disk, script, start + 1, m, url, rc + 1, args, k - 1, body);
    }
  }

  /** Once a fetch has succeeded with caching on, the same request is
      served from its entry from then on: no transport call, the same body. */
  lemma SuccessIsServedFromCache(cfg: Config, disk: Disk, script: seq<Outcome>, start: nat,
                                 m: Method, url: string, rc: int, args: seq<Arg>,
                                 later: nat, rc2: int)
    requires cfg.cachePath != "" && !disk.readFails
    requires DoRequest(cfg, disk, script, start, m, url, rc, args).result.Ok?
    ensures var r := DoRequest(cfg, disk, script, start, m, url, rc, args);
      DoRequest(cfg, r.disk, script, later, m, url, rc2, args) == Run(r.result, r.disk, 0)
  {
    RequestFrame(cfg, disk, script, start, m, url, rc, args);
  }

  /** After `RemoveCache(url)` succeeds, `Get(url)` goes to the network. */
  lemma RemoveCacheForcesFetch(cfg: Config, disk: Disk, script: seq<Outcome>, start: nat, url: string)
    requires RemoveCache(cfg, disk, url).err.None?
    ensures Get(cfg, RemoveCache(cfg, disk, url).disk, script, start, url, []).used >= 1
  {
  }
}
