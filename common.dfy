/** Values shared by the route handlers: optional values, JavaScript truthiness,
    the JSON error reply, process exit codes and the proxy lookup. */
module Common {
  import Text

  datatype Option<+T> = None | Some(value: T)

  /** The shapes a value read from a query string or a JSON body can take.
      Numbers are modelled as integers only. */
  datatype JsValue = Undefined | Null | Bool(b: bool) | Num(n: int) | Str(s: string) | Object

  /** JavaScript's ToBoolean: the condition of `if (v)` and of `v ? a : b`. */
  predicate Truthy(v: JsValue)
  {
    match v
    case Undefined => false
    case Null => false
    case Bool(b) => b
    case Num(n) => n != 0
    case Str(s) => s != ""
    case Object => true
  }

  /** Truthiness of a value that is either absent or a string. */
  predicate Present(o: Option<string>)
  {
    o.Some? && o.value != ""
  }

  function AsJs(o: Option<string>): JsValue
  {
    if o.Some? then Str(o.value) else Undefined
  }

  /** The falsy values of JavaScript, as listed by ECMAScript's ToBoolean
      (with no NaN and no -0, since numbers are integers here). */
  lemma FalsyValues(v: JsValue)
    ensures !Truthy(v) <==> v in {Undefined, Null, Bool(false), Num(0), Str("")}
  {
  }

  lemma PresentIsTruthy(o: Option<string>)
    ensures Present(o) <==> Truthy(AsJs(o))
  {
  }

  /** A reply sent with `res.status(status).json({ error, code })`; `code` is
      None when the body has no `code` field. */
  datatype Reply = Reply(status: int, error: string, code: Option<string>)

  /** The code a child process reports on `exit`/`close`: a number, or null
      when the process was ended by a signal. */
  datatype ExitCode = Exited(n: int) | Signalled

  /** `code !== 0` */
  predicate Failed(c: ExitCode)
  {
    c != Exited(0)
  }

  /** The number as `${code}` renders it, or "null" for a signal. */
  function ExitCodeText(c: ExitCode): (t: string)
    ensures t != []
    ensures c.Signalled? ==> t == "null"
    ensures c.Exited? ==> t == Text.IntToString(c.n)
  {
    match c
    case Exited(n) => Text.IntToString(n)
    case Signalled => "null"
  }

  /** Different exit codes render differently: a number never renders as
      "null", and two numbers render alike only when they are equal. */
  lemma ExitCodeTextInjective(a: ExitCode, b: ExitCode)
    requires ExitCodeText(a) == ExitCodeText(b)
    ensures a == b
  {
    if a.Exited? && b.Exited? {
      Text.IntToStringInjective(a.n, b.n);
    }
  }

  /** The error a child process emits on `error` (failure to spawn or to
      signal it): Node's `error.code` (such as ENOENT) and `error.message`. */
  datatype SpawnError = SpawnError(errno: Option<string>, message: string)

  /** The message both yt-dlp callers give when the binary is missing (ENOENT). */
  const NotFoundMessage := "yt-dlp not found. " + "Please ensure yt-dlp is installed and in your PATH."

  /** `a || b || c` over the three proxy variables, kept only for its
      truthiness (every caller tests the result with `if (proxy)`). */
  function ResolveProxy(proxyUrl: Option<string>, httpProxy: Option<string>, httpsProxy: Option<string>): (r: Option<string>)
    ensures r.Some? <==> Present(proxyUrl) || Present(httpProxy) || Present(httpsProxy)
    ensures r.Some? ==> Present(r)
    ensures Present(proxyUrl) ==> r == proxyUrl
    ensures !Present(proxyUrl) && Present(httpProxy) ==> r == httpProxy
    ensures !Present(proxyUrl) && !Present(httpProxy) && Present(httpsProxy) ==> r == httpsProxy
  {
    if Present(proxyUrl) then proxyUrl
    else if Present(httpProxy) then httpProxy
    else if Present(httpsProxy) then httpsProxy
    else None
  }
}
