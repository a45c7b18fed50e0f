/** The package itself: its configuration globals as the fields of a
    `Client`, the setters that change them, and the fetch operations as
    methods that run against an `Env.Host`. Each operation is proved equal
    to its specification function in `Fetch`, `Batch`, `Alternate` or
    `CacheStore`, where its properties are proved. */
module Req {
  import opened Types
  import opened CacheKey
  import CacheStore
  import Env
  import Fetch
  import Batch
  import Alternate

  /** The package defaults (durations in nanoseconds, as `time.Duration`). */
  const DefaultLimit := 10
  const DefaultTimeout := 10_000_000_000
  const DefaultRetryCount := 3
  const DefaultRetrySleep := 200_000_000

  /** `FileRemove` never consults the configuration, so it stands outside
      the class: succeeds untouched for an empty or absent name, otherwise
      removes the file. */
  method FileRemove(host: Env.Host, name: string) returns (err: Option<Error>)
    modifies host
    ensures var u := CacheStore.FileRemove(old(host.State()), name);
      host.State() == u.disk && err == u.err
    ensures host.sent == old(host.sent)
  {
    err := None;
    if |name| > 0 {
      var found := host.Stat(name);
      if found {
        err := host.Remove(name);
      }
    }
  }

  class Client {
    /** `defaultLimit`: the batch concurrency bound. */
    var limit: int
    /** `defaultTimeout`: the transport timeout. */
    var timeout: int
    /** `defaultCachePath`: the cache root, `""` when caching is off. */
    var cachePath: string
    /** `defaultRetryCount`: the number of retries after a non-200. */
    var retryCount: int
    /** `defaultRetrySleepTime`: the pause before a retry. */
    var retrySleep: int
    /** The hex MD5 digest and the JSON serialiser, left uninterpreted. */
    const md5Hex: string -> string
    const marshal: seq<Arg> -> string

    constructor (md5Hex: string -> string, marshal: seq<Arg> -> string)
      ensures limit == DefaultLimit && timeout == DefaultTimeout && cachePath == ""
      ensures retryCount == DefaultRetryCount && retrySleep == DefaultRetrySleep
      ensures this.md5Hex == md5Hex && this.marshal == marshal
    {
      limit := DefaultLimit;
      timeout := DefaultTimeout;
      cachePath := "";
      retryCount := DefaultRetryCount;
      retrySleep := DefaultRetrySleep;
      this.md5Hex := md5Hex;
      this.marshal := marshal;
    }

    /** What the fetch logic reads of the configuration. */
    function Settings(): Config
      reads this
    {
      Config(cachePath, retryCount, md5Hex, marshal)
    }

    method SetLimit(limit: int)
      modifies this
      ensures this.limit == limit
      ensures timeout == old(timeout) && cachePath == old(cachePath)
      ensures retryCount == old(retryCount) && retrySleep == old(retrySleep)
    {
      this.limit := limit;
    }

    method SetTimeout(timeout: int)
      modifies this
      ensures this.timeout == timeout
      ensures limit == old(limit) && cachePath == old(cachePath)
      ensures retryCount == old(retryCount) && retrySleep == old(retrySleep)
    {
      this.timeout := timeout;
    }

    method SetRetryCount(retryCount: int)
      modifies this
      ensures this.retryCount == retryCount
      ensures limit == old(limit) && timeout == old(timeout)
      ensures cachePath == old(cachePath) && retrySleep == old(retrySleep)
    {
      this.retryCount := retryCount;
    }

    method SetRetrySleepTime(sleep: int)
      modifies this
      ensures retrySleep == sleep
      ensures limit == old(limit) && timeout == old(timeout)
      ensures cachePath == old(cachePath) && retryCount == old(retryCount)
    {
      retrySleep := sleep;
    }

    /** `SetCachePath`, given the absolute form of the directory (which is
      never empty); creating the directory is not modelled. Caching is on
      afterwards. */
    method SetCachePath(absPath: string)
      requires absPath != ""
      modifies this
      ensures cachePath == absPath && Settings().cachePath != ""
      ensures limit == old(limit) && timeout == old(timeout)
      ensures retryCount == old(retryCount) && retrySleep == old(retrySleep)
    {
      cachePath := absPath;
    }

    /** `doRequest`, with the recursion turned into a loop over the attempt
      counter. The cache is checked once, before the loop: nothing writes
      the disk between attempts, so the check the Go recursion repeats
      would miss every time (the loop invariant keeps that miss). */
    method DoRequest(host: Env.Host, m: Method, url: string, retryCount: int, args: seq<Arg>)
      returns (r: Result)
      modifies host
      ensures var run := Fetch.DoRequest(Settings(), old(host.State()), host.script, old(|host.sent|),
                                         m, url, retryCount, args);
        && r == run.result
        && host.State() == run.disk
        && host.sent == old(host.sent) + Repeat(Request(m, url, args), run.used)
    {
      var cfg := Settings();
      var name := CacheName(cfg, m, url, args);
      var found := false;
      if name != "" {
        found := host.Stat(name);
      }
      if found {
        r := host.ReadFile(name);
        assert host.sent == old(host.sent) + [];
        return;
      }
      ghost var disk0 := host.State();
      ghost var sent0 := host.sent;
      ghost var target := Fetch.DoRequest(cfg, disk0, host.script, |sent0|, m, url, retryCount, args);
      var request := Request(m, url, args);
      var attempt := retryCount;
      ghost var tries: nat := 0;
      while true
        invariant name == CacheName(cfg, m, url, args) && !(name != "" && CacheStore.FileExist(disk0, name))
        invariant host.State() == disk0
        invariant host.sent == sent0 + Repeat(request, tries)
        invariant var t := Fetch.DoRequest(cfg, disk0, host.script, |host.sent|, m, url, attempt, args);
          target == Fetch.Run(t.result, t.disk, t.used + tries)
        decreases Fetch.Budget(cfg, attempt)
      {
        ghost var t := Fetch.DoRequest(cfg, disk0, host.script, |host.sent|, m, url, attempt, args);
        var o := host.Do(request);
        assert host.sent == sent0 + Repeat(request, tries + 1);
        if o.TransportErr? {
          assert t == Fetch.Run(Err(TransportError), disk0, 1);
          r := Err(TransportError);
          return;
        }
        if o.status != 200 {
          if attempt < this.retryCount {
            // the pause of `retrySleep` before retrying has no observable effect here
            ghost var t' := Fetch.DoRequest(cfg, disk0, host.script, |host.sent|, m, url, attempt + 1, args);
            assert t == Fetch.Run(t'.result, t'.disk, t'.used + 1);
            attempt := attempt + 1;
            tries := tries + 1;
          } else {
            assert t == Fetch.Run(Err(StatusError(o.status)), disk0, 1);
            r := Err(StatusError(o.status));
            return;
          }
        } else {
          if name != "" {
            var err := host.WriteFile(name, o.body);
            if err.Some? {
              assert t == Fetch.Run(Err(WriteError), disk0, 1);
              r := Err(WriteError);
              return;
            }
            assert t == Fetch.Run(Ok(o.body), host.State(), 1);
          } else {
            assert t == Fetch.Run(Ok(o.body), disk0, 1);
          }
          r := Ok(o.body);
          return;
        }
      }
    }

    /** `Get`: `doRequest` with GET and a fresh attempt counter. */
    method Get(host: Env.Host, url: string, args: seq<Arg>) returns (r: Result)
      modifies host
      ensures var run := Fetch.Get(Settings(), old(host.State()), host.script, old(|host.sent|), url, args);
        && r == run.result
        && host.State() == run.disk
        && host.sent == old(host.sent) + Repeat(Request(GET, url, args), run.used)
    {
      r := DoRequest(host, GET, url, 0, args);
    }

    /** `Post`: `doRequest` with POST and a fresh attempt counter. */
    method Post(host: Env.Host, url: string, args: seq<Arg>) returns (r: Result)
      modifies host
      ensures var run := Fetch.Post(Settings(), old(host.State()), host.script, old(|host.sent|), url, args);
        && r == run.result
        && host.State() == run.disk
        && host.sent == old(host.sent) + Repeat(Request(POST, url, args), run.used)
    {
      r := DoRequest(host, POST, url, 0, args);
    }

    /** `BatchGet`, one item after another: index `i` of the result map
      receives the body of `Get(urls[i])`, or `urls[i]` when that fails;
      the error map stays empty and the aggregate error is nil. */
    method BatchGet(host: Env.Host, urls: seq<string>, args: seq<Arg>)
      returns (resMap: map<int, string>, errMap: map<int, string>, err: Option<Error>)
      modifies host
      ensures var b := Batch.BatchGet(Settings(), old(host.State()), host.script, old(|host.sent|), urls, args);
        && resMap == b.res && errMap == b.errs && err == b.err
        && host.State() == b.disk && |host.sent| == b.calls
      ensures host.sent == old(host.sent)
        + Batch.BatchSent(Settings(), old(host.State()), host.script, old(|host.sent|), urls, args, |urls|)
    {
      resMap := map[];
      errMap := map[];
      ghost var cfg := Settings();
      ghost var disk0 := host.State();
      ghost var log0 := host.sent;
      var i := 0;
      while i < |urls|
        invariant 0 <= i <= |urls|
        invariant BatchProgress(host, urls, args, disk0, log0, i, resMap)
      {
        resMap := RunItem(host, urls, args, disk0, log0, i, resMap);
        i := i + 1;
      }
      err := None;
    }

    /** After the first `i` items of a batch that started on `disk0` with
      log `log0`: the result map, the disk and the request log are those the
      sequential batch specifies. */
    ghost predicate BatchProgress(host: Env.Host, urls: seq<string>, args: seq<Arg>,
                                  disk0: CacheStore.Disk, log0: seq<Request>, i: nat, resMap: map<int, string>)
      reads this, host
      requires i <= |urls|
    {
      var p := Batch.BatchPrefix(Settings(), disk0, host.script, |log0|, urls, args, i);
      && resMap == p.res && host.State() == p.disk && |host.sent| == p.calls
      && host.sent == log0 + Batch.BatchSent(Settings(), disk0, host.script, |log0|, urls, args, i)
    }

    /** One task of `BatchGet`: `Get(urls[i])`, then `resMap[i]` is set to
      the body, or to the URL when the fetch fails. */
    method RunItem(host: Env.Host, urls: seq<string>, args: seq<Arg>,
                   ghost disk0: CacheStore.Disk, ghost log0: seq<Request>, i: nat, resMap: map<int, string>)
      returns (resMap': map<int, string>)
      requires i < |urls| && BatchProgress(host, urls, args, disk0, log0, i, resMap)
      modifies host
      ensures BatchProgress(host, urls, args, disk0, log0, i + 1, resMap')
    {
      ghost var p := Batch.BatchPrefix(Settings(), disk0, host.script, |log0|, urls, args, i);
      ghost var run := Fetch.Get(Settings(), p.disk, host.script, p.calls, urls[i], args);
      Batch.BatchStep(Settings(), disk0, host.script, |log0|, urls, args, i);
      var body := Get(host, urls[i], args);
      if body.Err? {
        resMap' := resMap[i := urls[i]];
      } else {
        resMap' := resMap[i := body.body];
      }
      assert resMap' == p.res[i := Batch.Entry(urls[i], run.result)];
    }

    /** `ChromeGet`: a usable cached copy, or the browser's rendering of
      `url` written back to the cache. */
    method ChromeGet(host: Env.Host, browser: string -> Option<string>, url: string) returns (r: Result)
      modifies host
      ensures var s := Alternate.ChromeGet(Settings(), old(host.State()), browser, url);
        r == s.result && host.State() == s.disk
      ensures host.sent == old(host.sent)
    {
      var name := CacheName(Settings(), GET, url, []);
      if name != "" {
        var found := host.Stat(name);
        if found {
          var data := host.ReadFile(name);
          if data.Ok? && |data.body| > 0 {
            return data;
          }
        }
      }
      var page := browser(url);
      if page.None? {
        return Err(BrowserError);
      }
      if name != "" {
        var werr := host.WriteFile(name, page.value);
        if werr.Some? {
          return Err(WriteError);
        }
      }
      r := Ok(page.value);
    }

    /** `CurlGet`: a usable cached copy, or the output of `curl` on the
      built argument list written back to the cache. */
    method CurlGet(host: Env.Host, curl: seq<string> -> Option<string>, url: string,
                   headers: seq<Alternate.Header>) returns (r: Result)
      modifies host
      ensures var s := Alternate.CurlGet(Settings(), old(host.State()), curl, url, headers);
        r == s.result && host.State() == s.disk
      ensures host.sent == old(host.sent)
    {
      var name := CacheName(Settings(), GET, url, []);
      if name != "" {
        var found := host.Stat(name);
        if found {
          var data := host.ReadFile(name);
          if data.Ok? && |data.body| > 0 {
            return data;
          }
        }
      }
      var header: Alternate.Header := [];
      if |headers| > 0 {
        header := headers[0];
      }
      var cmdArgs := Alternate.BuildCurlArgs(url, header);
      var output := curl(cmdArgs);
      if output.None? {
        return Err(CommandError);
      }
      if name != "" {
        var werr := host.WriteFile(name, output.value);
        if werr.Some? {
          return Err(WriteError);
        }
      }
      r := Ok(output.value);
    }

    /** `RemoveCache`: removes the cache entry of a GET of `url`. */
    method RemoveCache(host: Env.Host, url: string) returns (err: Option<Error>)
      modifies host
      ensures var u := CacheStore.RemoveCache(Settings(), old(host.State()), url);
        host.State() == u.disk && err == u.err
      ensures host.sent == old(host.sent)
    {
      var name := CacheName(Settings(), GET, url, []);
      err := FileRemove(host, name);
    }
  }
}
