/** Shared vocabulary of the fetch layer: request methods, opaque request
    arguments, transport outcomes, the errors the layer reports and the
    configuration snapshot that every specification function reads.

    Go strings and byte slices are both modelled as `string`: a `char`
    stands for one byte, and nothing in the layer decodes or encodes text. */
module Types {

  datatype Option<+T> = None | Some(value: T)

  /** The two HTTP methods the layer issues (`http.MethodGet`, `http.MethodPost`). */
  datatype Method = GET | POST

  /** The method's name as it appears in a cache file name. */
  function MethodName(m: Method): string
  {
    match m
    case GET => "GET"
    case POST => "POST"
  }

  /** One of the variadic `v ...interface{}` arguments handed to the HTTP
      client. Only its serialised form matters to this layer. */
  datatype Arg = Arg(repr: string)

  /** A request as it is handed to the transport. */
  datatype Request = Request(verb: Method, url: string, args: seq<Arg>)

  /** What one transport call yields: a connection-level failure, or a
      response with its status code and body. */
  datatype Outcome = TransportErr | Resp(status: int, body: string)

  /** The errors the layer returns. The Go code wraps each one with a stack
      trace; only the kind (and, for a status error, the code) is kept. */
  datatype Error =
    | TransportError
    | StatusError(code: int)
    | ReadError
    | WriteError
    | RemoveError
    | BrowserError
    | CommandError

  /** A `(string, error)` pair. The Go body is `""` on every error path but
      one: a failed cache read also returns the bytes read so far, which
      the model drops. */
  datatype Result = Ok(body: string) | Err(error: Error)

  /** The package configuration the fetch logic reads: the cache root
      (`defaultCachePath`, empty when caching is off), the retry bound
      (`defaultRetryCount`), and the two foreign functions the key
      derivation uses, the hex MD5 digest and the JSON serialiser, left
      uninterpreted. */
  datatype Config = Config(
    cachePath: string,
    retryCount: int,
    md5Hex: string -> string,
    marshal: seq<Arg> -> string)

  /** The answer of transport call number `k` under a scripted transport;
      a script that has run out answers with a transport error. */
  function Answer(script: seq<Outcome>, k: nat): Outcome
  {
    if k < |script| then script[k] else TransportErr
  }

  /** `n` copies of `x`. */
  function Repeat<T>(x: T, n: nat): (s: seq<T>)
    ensures |s| == n
    ensures forall i :: 0 <= i < n ==> s[i] == x
  {
    seq(n, i => x)
  }
}
