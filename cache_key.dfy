/** Cache-key derivation (`cacheName`): the on-disk name of a request's
    cache entry is `<root>/.<md5(url + args)>.<METHOD>.cache`, or `""` when
    no cache root is configured. */
module CacheKey {
  import opened Types

  /** Length of a hex-encoded MD5 digest. */
  const DigestLength := 32

  /** The digest that names a request's entry: the digest of the URL
      followed by the serialised argument list, which is `""` when no
      argument is given (a serialiser error is whatever text the serialiser
      stands for; the Go code drops the error value). Without arguments it
      covers the URL alone, so `Get(url)`, `ChromeGet`, `CurlGet` and
      `RemoveCache(url)` all name one entry. */
  function Digest(cfg: Config, url: string, args: seq<Arg>): (d: string)
    ensures args == [] ==> d == cfg.md5Hex(url)
    ensures args != [] ==> d == cfg.md5Hex(url + cfg.marshal(args))
  {
    var argsText := if |args| > 0 then cfg.marshal(args) else "";
    assert args == [] ==> url + argsText == url;
    cfg.md5Hex(url + argsText)
  }

  /** The file name `<root>/.<digest>.<METHOD>.cache`: a hidden file
      directly under `root` whose name carries the digest and ends with the
      method's own suffix. */
  function CacheFileName(root: string, digest: string, m: Method): (name: string)
    ensures |name| == |root| + 2 + |digest| + |MethodName(m)| + 7
  {
    var name := (root + "/.") + digest + ("." + MethodName(m) + ".cache");
    assert name == root + "/." + digest + "." + MethodName(m) + ".cache";
    name
  }

  /** `cacheName`: empty exactly when caching is disabled. */
  function CacheName(cfg: Config, m: Method, url: string, args: seq<Arg>): (name: string)
    ensures name == "" <==> cfg.cachePath == ""
  {
    if cfg.cachePath != "" then CacheFileName(cfg.cachePath, Digest(cfg, url, args), m) else ""
  }

  /** The parts a cache file name is made of. */
  datatype KeyParts = KeyParts(digest: string, verb: Method)

  /** Reads the digest and the method back out of a file name under `root`,
      for a digest of the standard length. */
  function ParseCacheFileName(root: string, name: string): Option<KeyParts>
  {
    var p := |root| + 2;
    if |name| < p + DigestLength || name[..p] != root + "/." then None
    else
      var rest := name[p + DigestLength..];
      if rest == ".GET.cache" then Some(KeyParts(name[p..p + DigestLength], GET))
      else if rest == ".POST.cache" then Some(KeyParts(name[p..p + DigestLength], POST))
      else None
  }

  /** A file name can be read back into the digest and method it was built from. */
  lemma ParseCacheFileNameInverts(root: string, digest: string, m: Method)
    requires |digest| == DigestLength
    ensures ParseCacheFileName(root, CacheFileName(root, digest, m)) == Some(KeyParts(digest, m))
  {
    var p := |root| + 2;
    var suffix := "." + MethodName(m) + ".cache";
    var name := CacheFileName(root, digest, m);
    assert name == (root + "/.") + digest + suffix;
    assert name[..p] == root + "/.";
    assert name[p..p + DigestLength] == digest;
    assert name[p + DigestLength..] == suffix;
    assert m == GET ==> suffix == ".GET.cache";
    assert m == POST ==> suffix == ".POST.cache";
  }

  /** With caching on and standard-length digests, two requests share a
      cache entry exactly when they have the same method and the same
      digest of URL plus serialised arguments: the method never lets a GET
      and a POST share an entry, and any sharing beyond equal inputs is a
      digest collision. */
  lemma CacheNamesCoincide(cfg: Config, m1: Method, url1: string, args1: seq<Arg>,
                           m2: Method, url2: string, args2: seq<Arg>)
    requires cfg.cachePath != ""
    requires |Digest(cfg, url1, args1)| == DigestLength
    requires |Digest(cfg, url2, args2)| == DigestLength
    ensures CacheName(cfg, m1, url1, args1) == CacheName(cfg, m2, url2, args2)
        <==> m1 == m2 && Digest(cfg, url1, args1) == Digest(cfg, url2, args2)
  {
    ParseCacheFileNameInverts(cfg.cachePath, Digest(cfg, url1, args1), m1);
    ParseCacheFileNameInverts(cfg.cachePath, Digest(cfg, url2, args2), m2);
  }

  /** With caching on, whatever the digest function returns, a GET entry
      and a POST entry never coincide, for any URLs and arguments: the
      ninth character from the end is the method's `G` or `O`. */
  lemma MethodsNeverShareEntry(cfg: Config, url1: string, args1: seq<Arg>, url2: string, args2: seq<Arg>)
    requires cfg.cachePath != ""
    ensures CacheName(cfg, GET, url1, args1) != CacheName(cfg, POST, url2, args2)
  {
    var a := CacheName(cfg, GET, url1, args1);
    var b := CacheName(cfg, POST, url2, args2);
    assert a[|a| - 9] == 'G';
    assert b[|b| - 9] == 'O';
  }
}
