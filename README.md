# req: a verified model of a caching, retrying HTTP fetch layer

This project models the fetch-and-cache logic in `req.go` of the Go package `req`.
- `Get` and `Post` fetch a URL through an HTTP client.
- A non-200 status is retried up to `defaultRetryCount` times.
- With a cache root configured, a successful body is stored in the file
  `<root>/.<md5(url + args)>.<METHOD>.cache`, where `args` is the JSON of the arguments, or empty when there are none.
  Later requests are served from that file.
- `BatchGet` fans a list of URLs out to `Get`.
- `ChromeGet` (a headless browser) and `CurlGet` (a `curl` subprocess) are two alternate fetchers.
  They use the same cache, but serve an entry only when it can be read and is not empty.

Every external effect is replaced by a small stand-in:
- **File system**: `CacheStore.Disk` is a map from paths to contents.
  It has two switches: reads fail, and writes and removals fail.
  The class `Env.Host` holds the same state and exposes `os.Stat`, `os.ReadFile`, `os.WriteFile` and `os.Remove`.
- **HTTP transport** (`req.Do`): `Env.Host` also holds a fixed script of outcomes.
  Call number `k` gets the `k`-th outcome, either a transport error or a status and body.
  Once the script runs out, every call is a transport error.
  The host logs every request it is sent.
- **MD5 and JSON serialisation**: the uninterpreted functions `md5Hex` and `marshal`.
  They are fixed when a `Req.Client` is built.
- **Browser and `curl`**: oracle functions, passed as parameters.
  The browser maps a URL to its page. `curl` maps an argument list to its output.
  Either can return nothing, which stands for a navigation error or a failing command.
- **Package globals**: the fields of `Req.Client`, changed by its `Set*` methods.

Go strings and byte slices are both modelled as Dafny `string`. A character stands for a byte, and the layer never encodes or decodes text.

The operations are built in two layers:
- **Specification functions** (`Fetch.DoRequest`, `Batch.BatchGet`, `Alternate.ChromeGet`, `CacheStore.RemoveCache`, ...).
  They are functions of the configuration, the disk, the transport script and the number of calls made so far.
  `Fetch.DoRequest` follows the Go recursion, including the cache check that each recursive call repeats.
  All the properties are proved about these functions.
- **Imperative methods**: those of `Req.Client`, and the module-level `Req.FileRemove` and `Alternate.BuildCurlArgs`.
  `Req.Client.DoRequest` turns the recursion into a loop over an attempt counter, and checks the cache once, before the loop.
  `Req.Client.BatchGet` fills its result map index by index, one `RunItem` per URL.
  `Alternate.BuildCurlArgs` appends to the argument list in a loop.
  Each method's postcondition states that its result, the new disk and the request log are exactly those of its specification function (`Batch.BatchSent` gives the log of a batch).

Points where the Go code may not do what a reader of its API would expect; the model follows the code:
- **Batch failures**: a failed item puts its URL into the *result* map, and the error map is always returned empty (req.go:145-148).
  The aggregate error is nil, because every task returns nil.
- **Cache check on retry**: one might expect a retry to skip the cache check, but a retry re-enters `doRequest`, so the check runs again (req.go:102 and req.go:89-90).
  In a sequential run nothing writes the disk between attempts, so the repeated check always misses.
  The `DoRequest` loop invariant carries that miss.
- **Distinct keys**: one might expect requests differing in method or arguments to get different keys.
  The code relies on MD5 for that.
  The model proves, whatever the digest function, that with caching on a GET key and a POST key never coincide, for any URLs and arguments (`MethodsNeverShareEntry`).
  For the rest it proves that, for 32-character digests, two keys coincide exactly when the methods are equal and the digests are equal (`CacheNamesCoincide`).
  It does not claim MD5 is collision-free.
- **Empty entries**: `doRequest` serves any existing entry, an empty one included, while `ChromeGet` and `CurlGet` refetch an empty entry (req.go:90 against req.go:166 and req.go:197).

## Model

| member | source | states |
|---|---|---|
| CacheKey.Digest | req.go:79-83 | with no arguments the digest covers the URL alone (the entry `Get(url)`, `ChromeGet`, `CurlGet` and `RemoveCache` share); otherwise it covers the URL followed by the serialised arguments |
| CacheKey.CacheFileName | req.go:83 | the file name is the root, `/.`, the digest, `.`, the method and `.cache`, so its length is the sum of those parts |
| CacheKey.CacheName | req.go:77-86 | the cache name is empty exactly when no cache root is configured |
| CacheKey.ParseCacheFileNameInverts | req.go:83 | a name `<root>/.<digest>.<METHOD>.cache` with a 32-character digest can be read back into that digest and method |
| CacheKey.CacheNamesCoincide | req.go:77-86 | with caching on, two requests share an entry iff they have the same method and the same digest of URL plus serialised arguments |
| CacheKey.MethodsNeverShareEntry | req.go:83 | with caching on and whatever the digest, the GET entry of any request and the POST entry of any request differ |
| CacheStore.ReadFile | req.go:91 | a read succeeds exactly for an existing file in a readable directory and yields its stored bytes; otherwise it is a read error |
| CacheStore.WriteFile | req.go:109 | a write succeeds exactly for a non-empty path on a writable disk and then stores the data under that path; a failed write is all-or-nothing and changes nothing (see Left out) |
| CacheStore.Remove | req.go:250 | a removal succeeds exactly for an existing file on a writable disk and then deletes that path only; a failed removal is a remove error and changes nothing |
| CacheStore.FileRemove | req.go:248-253 | an empty or absent name succeeds untouched; an existing entry on a writable disk is deleted and nothing else; on an unwritable disk the removal error is returned and nothing changes |
| CacheStore.RemoveCache | req.go:229-232 | after a successful call the GET entry of `url` no longer exists; an existing entry on a writable disk is deleted and nothing else, and on an unwritable disk the removal error is returned with the disk unchanged; an absent entry or disabled caching leaves the disk as it is and succeeds |
| CacheStore.ReadAfterWrite | req.go:109 | reading back a successful write yields the written bytes |
| CacheStore.WriteKeepsOthers | req.go:109 | a write leaves every other entry's existence and contents unchanged |
| Env.Host.Stat | req.go:236-245 | `fileExist`: true exactly for a non-empty path naming a stored file; the only stat failure modelled is a missing path (see Left out) |
| Env.Host.ReadFile | req.go:91 | returns what `CacheStore.ReadFile` specifies on the current disk |
| Env.Host.WriteFile | req.go:109 | the new disk and error are those of `CacheStore.WriteFile`; the request log is unchanged |
| Env.Host.Remove | req.go:250 | the new disk and error are those of `CacheStore.Remove`; the request log is unchanged |
| Env.Host.Do | req.go:95 | a transport call answers with the next scripted outcome and appends the request to the log; the disk is unchanged |
| Fetch.DoRequest | req.go:88-116 | a fetch at attempt counter `rc` makes at most one transport call plus one per retry left, `max(defaultRetryCount - rc, 0) + 1` in all |
| Fetch.Get | req.go:119-121 | `Get` makes at most `max(defaultRetryCount, 0) + 1` transport calls, and none exactly on a cache hit |
| Fetch.Post | req.go:124-126 | `Post` makes at most `max(defaultRetryCount, 0) + 1` transport calls, and none exactly on a cache hit |
| Fetch.RequestFrame | req.go:88-116 | for every input: no transport call exactly on a cache hit; a hit or an error leaves the disk alone; a network success changes only the request's entry, to the returned body |
| Fetch.CacheHitShortCircuits | req.go:89-93 | a cache hit returns the stored bytes (or the read error) with zero transport calls and an unchanged disk |
| Fetch.TransportErrorNoRetry | req.go:95-97 | a transport error returns an error after exactly one call, with no retry and no write |
| Fetch.RetriesExhausted | req.go:98-104 | against a transport that keeps answering non-200, the fetch makes one call plus one per retry left, then fails with the last status code and writes nothing |
| Fetch.EntryRetriesExhausted | req.go:119-126 | with `defaultRetryCount >= 0`, `Get`/`Post` (attempt counter 0) make exactly `defaultRetryCount + 1` calls and fail with the last status |
| Fetch.SucceedsAfterRetries | req.go:98-115 | a 200 after `k` rejections within the budget returns that body after `k + 1` calls; with caching on it is stored under exactly the request's entry, and a failing write turns the success into an error |
| Fetch.SuccessIsServedFromCache | req.go:89-93 | after a successful fetch with caching on, the same request is served from the entry with no call and the same body |
| Fetch.RemoveCacheForcesFetch | req.go:229-232 | after a successful `RemoveCache(url)`, `Get(url)` makes a transport call |
| Batch.BatchPrefix | req.go:140-156 | after the first `n` items have run, the result map holds exactly the indices `0..n-1`, the error map is empty, there is no aggregate error, and the call count only grows |
| Batch.BatchPrefixEntries | req.go:144-153 | once item `j` has run, later items leave index `j` alone: it holds the outcome of item `j`'s own `Get` on the state the earlier items left |
| Batch.BatchStep | req.go:143-155 | running item `i` adds exactly index `i`, set to that item's entry, to the result map, and appends that item's requests to the log |
| Batch.BatchGet | req.go:129-160 | the result map's domain is exactly the indices of `urls`; the error map is empty and the aggregate error is nil |
| Batch.BatchGetEntries | req.go:144-153 | index `j` holds item `j`'s body if its `Get` succeeded and `urls[j]` if it failed |
| Batch.RecordWrites | req.go:143-155 | writing each task's own index, in any order, sets exactly those indices to their entries and keeps the rest |
| Batch.BatchGetIsRecord | req.go:140-156 | the batch's result map is what the tasks' writes of their own entries produce, so `RecordAnyOrder` applies to it |
| Batch.RecordAnyOrder | req.go:140-156 | in any order in which the tasks' writes happen one at a time, the final result map maps every index to its own entry (see Left out) |
| Alternate.CurlArgs | req.go:207-210 | the `curl` arguments are the URL, then a `-H` flag and its `"key: value"` line per header pair, in order, `1 + 2 * #headers` strings in all |
| Alternate.HeaderFlags | req.go:208-210 | one `-H` flag and one `"key: value"` line per header pair, in order, so twice as many strings as pairs |
| Alternate.HeaderFlagsAppend | req.go:208-210 | appending a header pair appends its `-H` flag and line to the flags |
| Alternate.BuildCurlArgs | req.go:207-210 | the argument list is the URL followed by the header flags, of length `1 + 2 * #headers` |
| Alternate.ServeOrFetch | req.go:164-190 | a cached copy is served iff it is present, readable and non-empty; otherwise an oracle answer is returned as `Ok` and written to exactly the entry when caching is off or the disk is writable, a failing write turns it into a write error, and an oracle or write error changes nothing |
| Alternate.ChromeGet | req.go:163-191 | the browser is consulted exactly when there is no usable copy of the GET entry, and a usable copy is served with the disk unchanged; a rendered page is returned and written to exactly that entry when caching is off or the disk is writable, a failing write is a write error, and a navigation error is a browser error; errors leave the disk alone |
| Alternate.CurlGet | req.go:194-226 | `curl` is run on `CurlArgs` of the first header exactly when there is no usable copy, and a usable copy is served with the disk unchanged; its output is returned and written to exactly that entry when caching is off or the disk is writable, a failing write is a write error, and a failing command is a command error; errors leave the disk alone |
| Alternate.CurlGetUsesFirstHeader | req.go:202-205 | `CurlGet` behaves the same whatever header arguments follow the first, and with no header argument as with one empty header |
| Alternate.FetchedPageIsReusedUnlessEmpty | req.go:165-168 | a page obtained with caching on is served by the next call without the oracle, unless it was empty; an empty page is fetched again |
| Alternate.EmptyEntryIsRefetched | req.go:89-93 | an empty cache entry is returned as it is by `Get` with no call, yet sends `ChromeGet` and `CurlGet` to their oracle |
| Req.FileRemove | req.go:248-253 | the new disk and error are those of `CacheStore.FileRemove`; no request is sent |
| Req.Client.constructor | req.go:21-32 | the defaults: limit 10, timeout 10 s, caching off, 3 retries, 200 ms pause |
| Req.Client.SetLimit | req.go:39-41 | sets the concurrency bound and nothing else |
| Req.Client.SetTimeout | req.go:44-47 | sets the timeout and nothing else |
| Req.Client.SetRetryCount | req.go:50-52 | sets the retry bound and nothing else |
| Req.Client.SetRetrySleepTime | req.go:55-57 | sets the retry pause and nothing else |
| Req.Client.SetCachePath | req.go:60-74 | sets a non-empty cache root, so caching is on, and nothing else |
| Req.Client.DoRequest | req.go:88-116 | the loop's result, new disk and request log (one copy of the request per transport call) are exactly those of the recursive `Fetch.DoRequest` |
| Req.Client.Get | req.go:119-121 | result, disk and request log are those of `Fetch.Get` |
| Req.Client.Post | req.go:124-126 | result, disk and request log are those of `Fetch.Post` |
| Req.Client.RunItem | req.go:143-155 | one task: after `Get(urls[i])` and the write of index `i`, the result map, disk and log are those of the first `i + 1` items of the sequential batch |
| Req.Client.BatchGet | req.go:129-160 | the maps, error, disk and call count are those of `Batch.BatchGet`, and the log is the old log followed by `Batch.BatchSent` |
| Req.Client.ChromeGet | req.go:163-191 | result and disk are those of `Alternate.ChromeGet`; no HTTP request is sent |
| Req.Client.CurlGet | req.go:194-226 | result and disk are those of `Alternate.CurlGet`, with `curl` run on `BuildCurlArgs`; no HTTP request is sent |
| Req.Client.RemoveCache | req.go:229-232 | the new disk and error are those of `CacheStore.RemoveCache` |

## Left out

- Batch.RecordAnyOrder: the tasks' writes are taken one at a time, in some order. The Go code does not ensure that: req.go:146-152 guards the same `resMap` with two different mutexes, so a failing and a succeeding task can write it at the same moment, a data race the Go runtime may abort with "concurrent map writes".
- Batch.BatchGet: always terminates. In Go, `SetLimit(0)` (a `defaultLimit` of 0, req.go:139) makes the first `group.Go` block forever for a non-empty `urls`.
- Concurrency in `BatchGet` is not modelled: the `errgroup` admission bound (`SetLimit`, req.go:139), the mutexes and goroutine scheduling. Items run one after another in index order. `RecordAnyOrder` covers only the write pattern, where each task writes its own index. With real concurrency, the items share the transport and the cache in an arbitrary order, and two items with the same key can race, last write wins.
- MD5 (`md5sum`, req.go:256-258) and jsoniter serialisation (req.go:81) are uninterpreted functions. The serialiser's dropped error value is folded into whatever text the function returns. Key-distinctness lemmas hold only up to digest collisions.
- Time is not modelled: `time.Sleep` between retries, the `defaultTimeout` setting and the `req.SetTimeout` calls (req.go:34-47, req.go:101). The values are stored and have no observable effect.
- `SetCachePath` receives the already absolute path. `filepath.Abs`, `os.MkdirAll` and the panics on their failure are foreign file-system calls (req.go:60-71). Directories are not part of the disk model.
- `fileExist` is true for any existing path in Go, a directory included. The disk holds only regular files.
- Env.Host.Stat: `os.Stat` fails only for a missing path. A stat error on a stored path (permissions, I/O), which `fileExist` reads as absent (req.go:241-244), cannot happen in the model.
- CacheStore.WriteFile: a failed write is all-or-nothing. `os.WriteFile` opens with create-and-truncate, so a write that fails after opening (a full disk) leaves an empty or partial file. On the cache-miss path of req.go:109 the next `Get` would then serve that file with no transport call, because `doRequest` does not check for emptiness; the model's next `Get` goes to the network.
- A failed `os.ReadFile` yields no data. Go may also return partially read bytes beside the error.
- The HTTP client's encoding of arguments into query, body or headers is not modelled, nor the response decoding. The transport's answer does not depend on the request. The request is only logged.
- The chromedp session (context, navigation, `OuterHTML` of `body`, teardown; req.go:171-181) and the `curl` subprocess (req.go:212-216) are oracles. `ChromeGet`'s `ctx` argument is dropped.
- A `req.Header` is a Go map visited in unspecified order (req.go:208). It is modelled as a sequence of pairs visited in sequence order.
- Errors keep only their kind and status code. The stack traces and messages added by `errors.WithStack` and `fmt.Errorf` are not kept.
- `Check` and `Download` in func.go are direct HTTP-to-file plumbing and are not part of this model.
