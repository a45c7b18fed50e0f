/** The batch dispatcher (`BatchGet`), run one item after another: each
    item is a `Get` on the disk and transport left by the items before it,
    and its index receives the body on success and the URL itself on
    failure, as the Go code does. */
module Batch {
  import opened Types
  import opened CacheStore
  import opened Fetch

  /** What lands in `resMap[i]`: the body on success, the URL on failure. */
  function Entry(url: string, r: Result): string
  {
    if r.Ok? then r.body else url
  }

  /** `(resMap, errMap, err)`, the disk afterwards and the number of
      transport calls made in all (counting those made before the batch). */
  datatype Collected = Collected(res: map<int, string>, errs: map<int, string>, err: Option<Error>,
                                 disk: Disk, calls: nat)

  /** The first `n` items run one after another: each item's `Get` runs on
      the disk and transport the items before it left, and its index
      receives its entry. Exactly the indices `0..n` are present, the error
      map stays empty, there is no aggregate error, and the calls only grow. */
  function BatchPrefix(cfg: Config, disk: Disk, script: seq<Outcome>, calls: nat,
                       urls: seq<string>, args: seq<Arg>, n: nat): (b: Collected)
    requires n <= |urls|
    ensures forall j :: j in b.res <==> 0 <= j < n
    ensures b.errs == map[] && b.err == None
    ensures calls <= b.calls
    decreases n
  {
    if n == 0 then Collected(map[], map[], None, disk, calls)
    else
      var p := BatchPrefix(cfg, disk, script, calls, urls, args, n - 1);
      var r := Get(cfg, p.disk, script, p.calls, urls[n - 1], args);
      Collected(p.res[n - 1 := Entry(urls[n - 1], r.result)], p.errs, p.err, r.disk, p.calls + r.used)
  }

  /** Once item `j` has run, later items leave its entry alone: it is the
      outcome of item `j`'s own `Get`, run on the state the items before it
      left. */
  lemma {:induction false} BatchPrefixEntries(cfg: Config, disk: Disk, script: seq<Outcome>, calls: nat,
                                              urls: seq<string>, args: seq<Arg>, n: nat, j: int)
    requires 0 <= j < n <= |urls|
    ensures var s := BatchPrefix(cfg, disk, script, calls, urls, args, j);
      BatchPrefix(cfg, disk, script, calls, urls, args, n).res[j]
        == Entry(urls[j], Get(cfg, s.disk, script, s.calls, urls[j], args).result)
    decreases n
  {
    if j < n - 1 {
      BatchPrefixEntries(cfg, disk, script, calls, urls, args, n - 1, j);
    }
  }

  /** The requests the first `n` items send, in order: each item's `Get`
      sends its URL once per transport call it makes. */
  function BatchSent(cfg: Config, disk: Disk, script: seq<Outcome>, calls: nat,
                     urls: seq<string>, args: seq<Arg>, n: nat): seq<Request>
    requires n <= |urls|
    decreases n
  {
    if n == 0 then []
    else
      var p := BatchPrefix(cfg, disk, script, calls, urls, args, n - 1);
      var r := Get(cfg, p.disk, script, p.calls, urls[n - 1], args);
      BatchSent(cfg, disk, script, calls, urls, args, n - 1) + Repeat(Request(GET, urls[n - 1], args), r.used)
  }

  /** Running item `i` extends the first `i` items' result map, state and
      request log by that item's own `Get`. */
  lemma BatchStep(cfg: Config, disk: Disk, script: seq<Outcome>, calls: nat,
                  urls: seq<string>, args: seq<Arg>, i: nat)
    requires i < |urls|
    ensures var p := BatchPrefix(cfg, disk, script, calls, urls, args, i);
      var run := Get(cfg, p.disk, script, p.calls, urls[i], args);
      && BatchPrefix(cfg, disk, script, calls, urls, args, i + 1)
           == Collected(p.res[i := Entry(urls[i], run.result)], map[], None, run.disk, p.calls + run.used)
      && BatchSent(cfg, disk, script, calls, urls, args, i + 1)
           == BatchSent(cfg, disk, script, calls, urls, args, i) + Repeat(Request(GET, urls[i], args), run.used)
  {
  }

  /** `BatchGet`: the result map has exactly one entry per index of `urls`
      and the error map is empty and the aggregate error is nil, because
      every task records its outcome in the result map and returns nil. */
  function BatchGet(cfg: Config, disk: Disk, script: seq<Outcome>, calls: nat,
                    urls: seq<string>, args: seq<Arg>): (b: Collected)
    ensures forall j :: j in b.res <==> 0 <= j < |urls|
    ensures b.errs == map[] && b.err == None
  {
    BatchPrefix(cfg, disk, script, calls, urls, args, |urls|)
  }

  /** Index `j` of the batch holds item `j`'s body if its fetch succeeded
      and `urls[j]` if it failed, whatever the later items did. */
  lemma BatchGetEntries(cfg: Config, disk: Disk, script: seq<Outcome>, calls: nat,
                        urls: seq<string>, args: seq<Arg>, j: int)
    requires 0 <= j < |urls|
    ensures var b := BatchGet(cfg, disk, script, calls, urls, args);
      var s := BatchPrefix(cfg, disk, script, calls, urls, args, j);
      var run := Get(cfg, s.disk, script, s.calls, urls[j], args);
      j in b.res && b.res[j] == (if run.result.Ok? then run.result.body else urls[j])
  {
    BatchPrefixEntries(cfg, disk, script, calls, urls, args, |urls|, j);
  }

  /** The entries the items produce, in index order: entry `j` is the
      outcome of item `j`'s `Get` on the state the items before it left. */
  function Entries(cfg: Config, disk: Disk, script: seq<Outcome>, calls: nat,
                   urls: seq<string>, args: seq<Arg>): (e: seq<string>)
    ensures |e| == |urls|
  {
    seq(|urls|, j requires 0 <= j < |urls| =>
      var s := BatchPrefix(cfg, disk, script, calls, urls, args, j);
      Entry(urls[j], Get(cfg, s.disk, script, s.calls, urls[j], args).result))
  }

  /** The tasks' writes to the result map in the order of `order`; each
      task writes only its own index. */
  function Record(m: map<int, string>, entries: seq<string>, order: seq<int>): map<int, string>
    requires forall k :: 0 <= k < |order| ==> 0 <= order[k] < |entries|
    decreases |order|
  {
    if order == [] then m else Record(m[order[0] := entries[order[0]]], entries, order[1..])
  }

  /** What `Record` adds to the map, for any order. */
  lemma {:induction false} RecordWrites(m: map<int, string>, entries: seq<string>, order: seq<int>)
    requires forall k :: 0 <= k < |order| ==> 0 <= order[k] < |entries|
    ensures var r := Record(m, entries, order);
      && (forall j :: j in r <==> j in m || j in order)
      && (forall j :: j in order ==> 0 <= j < |entries| && r[j] == entries[j])
      && (forall j :: j in m && j !in order ==> r[j] == m[j])
    decreases |order|
  {
    if order != [] {
      RecordWrites(m[order[0] := entries[order[0]]], entries, order[1..]);
    }
  }

  /** In whatever order the tasks finish, once every index has been
      written the result map is the same: index `j` maps to entry `j`. */
  lemma RecordAnyOrder(entries: seq<string>, order: seq<int>)
    requires forall k :: 0 <= k < |order| ==> 0 <= order[k] < |entries|
    requires forall j :: 0 <= j < |entries| ==> j in order
    ensures Record(map[], entries, order) == map j | 0 <= j < |entries| :: entries[j]
  {
    RecordWrites(map[], entries, order);
  }

  /** The batch's own result map is what the tasks' writes of its entries
      produce, so by `RecordAnyOrder` it does not depend on the order in
      which those writes happen one at a time. */
  lemma BatchGetIsRecord(cfg: Config, disk: Disk, script: seq<Outcome>, calls: nat,
                         urls: seq<string>, args: seq<Arg>)
    ensures var order := seq(|urls|, i => i);
      BatchGet(cfg, disk, script, calls, urls, args).res
        == Record(map[], Entries(cfg, disk, script, calls, urls, args), order)
  {
    var e := Entries(cfg, disk, script, calls, urls, args);
    var order := seq(|urls|, i => i);
    var b := BatchGet(cfg, disk, script, calls, urls, args);
    forall j | 0 <= j < |urls|
      ensures j in order
    {
      assert order[j] == j;
    }
    RecordAnyOrder(e, order);
    forall j | 0 <= j < |urls|
      ensures b.res[j] == e[j]
    {
      BatchGetEntries(cfg, disk, script, calls, urls, args, j);
    }
  }
}
