/** The alternate fetch strategies (`ChromeGet`, `CurlGet`): the browser
    and the `curl` subprocess are oracles, a function from what they are
    given to the page they produce (or `None` for a navigation error or a
    failing command). Both share one cache discipline, stricter than
    `doRequest`'s: a cached copy is served only when it can be read and is
    not empty. */
module Alternate {
  import opened Types
  import opened CacheKey
  import opened CacheStore
  import Fetch

  /** A `req.Header` as the pairs its range loop visits, in that order. */
  type Header = seq<(string, string)>

  /** The value of one `-H` flag: `"<key>: <value>"`. */
  function HeaderLine(h: (string, string)): string
  {
    h.0 + ": " + h.1
  }

  /** Prefixing one `-H` pair to flags laid out for the tail of `h` lays
      them out for all of `h`. */
  lemma ConsFlags(h: Header, rest: seq<string>)
    requires |h| > 0 && |rest| == 2 * (|h| - 1)
    requires forall i :: 0 <= i < |h| - 1 ==> rest[2 * i] == "-H" && rest[2 * i + 1] == HeaderLine(h[1..][i])
    ensures var flags := ["-H", HeaderLine(h[0])] + rest;
      forall i :: 0 <= i < |h| ==> flags[2 * i] == "-H" && flags[2 * i + 1] == HeaderLine(h[i])
  {
    var flags := ["-H", HeaderLine(h[0])] + rest;
    forall i | 0 <= i < |h|
      ensures flags[2 * i] == "-H" && flags[2 * i + 1] == HeaderLine(h[i])
    {
      if i > 0 {
        var k := i - 1;
        assert h[1..][k] == h[i];
        assert flags[2 * i] == rest[2 * k];
        assert flags[2 * i + 1] == rest[2 * k + 1];
      }
    }
  }

  /** `"-H", "<key>: <value>"` for each header pair in turn. */
  function HeaderFlags(h: Header): (flags: seq<string>)
    ensures |flags| == 2 * |h|
    ensures forall i :: 0 <= i < |h| ==> flags[2 * i] == "-H" && flags[2 * i + 1] == HeaderLine(h[i])
  {
    if h == [] then []
    else
      var rest := HeaderFlags(h[1..]);
      ConsFlags(h, rest);
      ["-H", HeaderLine(h[0])] + rest
  }

  /** The argument list `CurlGet` hands to `curl`: the URL, then one `-H`
      pair per header pair, in order. */
  function CurlArgs(url: string, h: Header): (a: seq<string>)
    ensures |a| == 1 + 2 * |h| && a[0] == url
    ensures forall i :: 0 <= i < |h| ==> a[1 + 2 * i] == "-H" && a[2 + 2 * i] == HeaderLine(h[i])
  {
    [url] + HeaderFlags(h)
  }

  /** The header `CurlGet` uses: the first of its variadic header
      arguments, or no header when none is given. */
  function FirstHeader(headers: seq<Header>): Header
  {
    if |headers| > 0 then headers[0] else []
  }

  lemma {:induction false} HeaderFlagsAppend(h: Header, pair: (string, string))
    ensures HeaderFlags(h + [pair]) == HeaderFlags(h) + ["-H", HeaderLine(pair)]
  {
    if h == [] {
      assert [] + [pair] == [pair];
    } else {
      assert (h + [pair])[1..] == h[1..] + [pair];
      HeaderFlagsAppend(h[1..], pair);
    }
  }

  /** The argument-building loop of `CurlGet`: the URL, then a `-H` flag
      and its `"<key>: <value>"` line per header pair. */
  method BuildCurlArgs(url: string, header: Header) returns (args: seq<string>)
    ensures args == CurlArgs(url, header)
    ensures |args| == 1 + 2 * |header| && args[0] == url
  {
    args := [url];
    var i := 0;
    while i < |header|
      invariant 0 <= i <= |header|
      invariant args == [url] + HeaderFlags(header[..i])
    {
      HeaderFlagsAppend(header[..i], header[i]);
      assert header[..i + 1] == header[..i] + [header[i]];
      args := args + ["-H", HeaderLine(header[i])];
      i := i + 1;
    }
    assert header[..i] == header;
  }

  /** The result, the disk afterwards, and whether the oracle was consulted. */
  datatype Served = Served(result: Result, disk: Disk, fetched: bool)

  /** The cached copy the strategies accept: present, readable, non-empty. */
  predicate UsableCopy(disk: Disk, name: string)
  {
    name != "" && FileExist(disk, name) && !disk.readFails && |disk.files[name]| > 0
  }

  /** The shared discipline: serve a usable cached copy; otherwise take the
      oracle's answer, fail with `failure` if there is none, and write the
      page back to the entry when caching is on. */
  function ServeOrFetch(disk: Disk, name: string, answer: Option<string>, failure: Error): (r: Served)
    ensures !r.fetched <==> UsableCopy(disk, name)
    ensures !r.fetched ==> r.result == ReadFile(disk, name) && r.disk == disk
    ensures r.fetched && answer.None? ==> r.result == Err(failure)
    ensures r.result.Err? ==> r.disk == disk
    ensures r.fetched && r.result.Ok? ==>
      answer == Some(r.result.body) &&
      r.disk == if name == "" then disk else disk.(files := disk.files[name := r.result.body])
    ensures r.fetched && answer.Some? && (name == "" || !disk.writeFails) ==> r.result == Ok(answer.value)
    ensures r.fetched && answer.Some? && name != "" && disk.writeFails ==> r.result == Err(WriteError)
  {
    if name != "" && FileExist(disk, name) && ReadFile(disk, name).Ok? && |ReadFile(disk, name).body| > 0 then
      Served(ReadFile(disk, name), disk, false)
    else if answer.None? then
      Served(Err(failure), disk, true)
    else if name != "" then
      var w := WriteFile(disk, name, answer.value);
      if w.err.Some? then Served(Err(WriteError), disk, true) else Served(Ok(answer.value), w.disk, true)
    else
      Served(Ok(answer.value), disk, true)
  }

  /** `ChromeGet`: the rendered `<body>` markup of `url`, cached under the
      GET entry of `url`. The browser is consulted exactly when there is no
      usable copy; what it renders is returned and written to the entry
      (or, if that write fails, turned into a write error), and a
      navigation error is a browser error that writes nothing. */
  function ChromeGet(cfg: Config, disk: Disk, browser: string -> Option<string>, url: string): (r: Served)
    ensures !r.fetched <==> UsableCopy(disk, CacheName(cfg, GET, url, []))
    ensures !r.fetched ==> r.result == ReadFile(disk, CacheName(cfg, GET, url, [])) && r.disk == disk
    ensures r.fetched && r.result.Ok? ==> browser(url) == Some(r.result.body)
    ensures r.fetched && browser(url).None? ==> r.result == Err(BrowserError) && r.disk == disk
    ensures r.fetched && browser(url).Some? ==>
      var name := CacheName(cfg, GET, url, []);
      && (name == "" || !disk.writeFails ==>
            r.result == Ok(browser(url).value) &&
            r.disk == if name == "" then disk else disk.(files := disk.files[name := browser(url).value]))
      && (name != "" && disk.writeFails ==> r.result == Err(WriteError) && r.disk == disk)
  {
    ServeOrFetch(disk, CacheName(cfg, GET, url, []), browser(url), BrowserError)
  }

  /** `CurlGet`: the standard output of `curl` run with `CurlArgs` on the
      first header argument, cached under the GET entry of `url`. `curl` is
      run exactly when there is no usable copy; its output is returned and
      written to the entry (or, if that write fails, turned into a write
      error), and a failing command is a command error that writes
      nothing. */
  function CurlGet(cfg: Config, disk: Disk, curl: seq<string> -> Option<string>,
                   url: string, headers: seq<Header>): (r: Served)
    ensures !r.fetched <==> UsableCopy(disk, CacheName(cfg, GET, url, []))
    ensures !r.fetched ==> r.result == ReadFile(disk, CacheName(cfg, GET, url, [])) && r.disk == disk
    ensures r.fetched && r.result.Ok? ==> curl(CurlArgs(url, FirstHeader(headers))) == Some(r.result.body)
    ensures r.fetched && curl(CurlArgs(url, FirstHeader(headers))).None? ==>
      r.result == Err(CommandError) && r.disk == disk
    ensures r.fetched && curl(CurlArgs(url, FirstHeader(headers))).Some? ==>
      var name := CacheName(cfg, GET, url, []);
      var output := curl(CurlArgs(url, FirstHeader(headers))).value;
      && (name == "" || !disk.writeFails ==>
            r.result == Ok(output) &&
            r.disk == if name == "" then disk else disk.(files := disk.files[name := output]))
      && (name != "" && disk.writeFails ==> r.result == Err(WriteError) && r.disk == disk)
  {
    ServeOrFetch(disk, CacheName(cfg, GET, url, []), curl(CurlArgs(url, FirstHeader(headers))), CommandError)
  }

  /** `CurlGet` ignores every header argument after the first, and no
      header argument at all acts as one empty header. */
  lemma CurlGetUsesFirstHeader(cfg: Config, disk: Disk, curl: seq<string> -> Option<string>,
                               url: string, h: Header, more: seq<Header>)
    ensures CurlGet(cfg, disk, curl, url, [h] + more) == CurlGet(cfg, disk, curl, url, [h])
    ensures CurlGet(cfg, disk, curl, url, []) == CurlGet(cfg, disk, curl, url, [[]])
  {
  }

  /** A page fetched with caching on is served by the next call without
      the oracle, unless the page was empty: an empty page is stored but
      always fetched again. */
  lemma FetchedPageIsReusedUnlessEmpty(disk: Disk, name: string, answer: Option<string>,
                                       failure: Error, next: Option<string>, failure2: Error)
    requires name != "" && !disk.readFails
    requires ServeOrFetch(disk, name, answer, failure).result.Ok?
    ensures var r := ServeOrFetch(disk, name, answer, failure);
      var again := ServeOrFetch(r.disk, name, next, failure2);
      (!again.fetched <==> |r.result.body| > 0) &&
      (!again.fetched ==> again.result == r.result)
  {
  }

  /** `Get` and the strategies disagree on an empty cache entry: a GET
      without arguments returns it as it is, while `ChromeGet` and
      `CurlGet` go to their oracle. */
  lemma EmptyEntryIsRefetched(cfg: Config, disk: Disk, browser: string -> Option<string>,
                              curl: seq<string> -> Option<string>, url: string, headers: seq<Header>,
                              script: seq<Outcome>, start: nat)
    requires var name := CacheName(cfg, GET, url, []);
      name != "" && FileExist(disk, name) && disk.files[name] == "" && !disk.readFails
    ensures Fetch.Get(cfg, disk, script, start, url, []) == Fetch.Run(Ok(""), disk, 0)
    ensures ChromeGet(cfg, disk, browser, url).fetched
    ensures CurlGet(cfg, disk, curl, url, headers).fetched
  {
  }
}
