/** The `GET /download` and `POST /download` routes: validation, the yt-dlp
    command line, the response headers, and the replies decided by the
    process's `error` and `close` events. */
module Download {
  import opened Common
  import opened Text

  datatype Verb = Get | Post

  function MissingUrlReply(verb: Verb): Reply
  {
    Reply(400, if verb == Get then "URL parameter is required" else "URL is required in request body", Some("MISSING_URL"))
  }

  /** `format = 'best'`: the default applies only to an absent format. */
  function FormatOrDefault(format: Option<string>): (f: string)
    ensures format.None? ==> f == "best"
    ensures format.Some? ==> f == format.value
  {
    if format.Some? then format.value else "best"
  }

  /** Whether `-x --audio-format mp3` is added: GET compares with the
      strings 'true' and '1'; POST also accepts the boolean `true`. */
  function ExtractRequested(verb: Verb, extract: JsValue): (x: bool)
    ensures x ==> Truthy(extract)
    ensures x <==> extract in (if verb == Get then {Str("true"), Str("1")} else {Str("true"), Str("1"), Bool(true)})
  {
    extract == Str("true") || extract == Str("1") || (verb == Post && extract == Bool(true))
  }

  /** `extract_audio ? 'audio/mpeg' : 'video/mp4'`: plain truthiness. */
  function MediaType(extract: JsValue): (t: string)
    ensures t == (if Truthy(extract) then "audio/mpeg" else "video/mp4")
    ensures t == "audio/mpeg" || t == "video/mp4"
  {
    if Truthy(extract) then "audio/mpeg" else "video/mp4"
  }

  /** POST accepts every value GET accepts, and the boolean `true` besides. */
  lemma PostAcceptsMore(extract: JsValue)
    ensures ExtractRequested(Get, extract) ==> ExtractRequested(Post, extract)
    ensures ExtractRequested(Post, Bool(true)) && !ExtractRequested(Get, Bool(true))
  {
  }

  /** Extraction always comes with the audio type, but the converse fails:
      any other truthy value, such as the string 'false', gives the audio
      type with no extraction. */
  lemma ExtractionAndMediaType(verb: Verb, extract: JsValue)
    ensures ExtractRequested(verb, extract) ==> MediaType(extract) == "audio/mpeg"
    ensures !ExtractRequested(verb, Str("false")) && MediaType(Str("false")) == "audio/mpeg"
    ensures !ExtractRequested(verb, Str("0")) && MediaType(Str("0")) == "audio/mpeg"
  {
  }

  /** `args`: `-f format`, then `-x --audio-format mp3` when extracting, then
      `--proxy p` when a proxy is set, then `-o - url`. */
  method BuildArgs(format: string, extract: bool, proxy: Option<string>, url: string) returns (args: seq<string>)
    ensures |args| == 5 + (if extract then 3 else 0) + (if Present(proxy) then 2 else 0)
    ensures args[..2] == ["-f", format]
    ensures extract ==> args[2..5] == ["-x", "--audio-format", "mp3"]
    ensures Present(proxy) ==> args[|args| - 5..|args| - 3] == ["--proxy", proxy.value]
    ensures args[|args| - 3..] == ["-o", "-", url]
  {
    args := ["-f", format];
    if extract {
      args := args + ["-x", "--audio-format", "mp3"];
    }
    if Present(proxy) {
      args := args + ["--proxy", proxy.value];
    }
    args := args + ["-o", "-", url];
  }

  /** What the handler does before anything streams. */
  datatype DownloadStart =
    | Rejected(reply: Reply)
    | Spawned(args: seq<string>, contentType: string, disposition: string)

  /** One request to either route. The three proxy parameters are PROXY_URL,
      HTTP_PROXY and HTTPS_PROXY; `spawnThrows` is the message of an
      exception `spawn` throws synchronously, if it does. */
  method StartDownload(verb: Verb, url: Option<string>, format: Option<string>, extract: JsValue,
                       proxyUrl: Option<string>, httpProxy: Option<string>, httpsProxy: Option<string>,
                       spawnThrows: Option<string>) returns (s: DownloadStart)
    ensures !Present(url) ==> s == Rejected(MissingUrlReply(verb))
    ensures Present(url) && spawnThrows.Some? ==> s == Rejected(Reply(500, spawnThrows.value, Some("INTERNAL_ERROR")))
    ensures s.Spawned? <==> Present(url) && spawnThrows.None?
    ensures s.Spawned? ==>
      var proxy := ResolveProxy(proxyUrl, httpProxy, httpsProxy);
      var x := ExtractRequested(verb, extract);
      && |s.args| == 5 + (if x then 3 else 0) + (if proxy.Some? then 2 else 0)
      && s.args[..2] == ["-f", FormatOrDefault(format)]
      && (x ==> s.args[2..5] == ["-x", "--audio-format", "mp3"])
      && (proxy.Some? ==> s.args[|s.args| - 5..|s.args| - 3] == ["--proxy", proxy.value])
      && s.args[|s.args| - 3..] == ["-o", "-", url.value]
      && s.contentType == MediaType(extract)
      && s.disposition == "attachment"
  {
    if !Present(url) {
      return Rejected(MissingUrlReply(verb));
    }
    var proxy := ResolveProxy(proxyUrl, httpProxy, httpsProxy);
    var args := BuildArgs(FormatOrDefault(format), ExtractRequested(verb, extract), proxy, url.value);
    if spawnThrows.Some? {
      return Rejected(Reply(500, spawnThrows.value, Some("INTERNAL_ERROR")));
    }
    s := Spawned(args, MediaType(extract), "attachment");
  }

  /** The reply of the `error` handler. */
  function ErrorReply(err: SpawnError): (r: Reply)
    ensures r.status == 500
    ensures err.errno == Some("ENOENT") ==> r == Reply(500, NotFoundMessage, Some("YTDLP_NOT_FOUND"))
    ensures err.errno != Some("ENOENT") ==> r == Reply(500, err.message, Some("DOWNLOAD_ERROR"))
  {
    if err.errno == Some("ENOENT") then Reply(500, NotFoundMessage, Some("YTDLP_NOT_FOUND"))
    else Reply(500, err.message, Some("DOWNLOAD_ERROR"))
  }

  /** The reply of the `close` handler for a nonzero code. */
  function CloseReply(code: ExitCode): (r: Reply)
    ensures r.status == 500 && r.code == Some("DOWNLOAD_FAILED")
    ensures var prefix := "yt-dlp process exited with code ";
      |prefix| < |r.error| && r.error[..|prefix|] == prefix && r.error[|prefix|..] == ExitCodeText(code)
  {
    Reply(500, "yt-dlp process exited with code " + ExitCodeText(code), Some("DOWNLOAD_FAILED"))
  }

  /** The response side of a started download: whether the headers are out
      (`streaming` when the pipe from yt-dlp's output sent them, at its first
      byte or by ending the response when the output ends), the
      replies sent, the SIGTERMs sent on client disconnect, and the number
      of times the `error` handler ran after the headers were out, where
      `res.status(500).json(..)` throws instead of replying. */
  datatype Stream = Stream(headersSent: bool, streaming: bool, replies: seq<Reply>, terms: nat, throws: nat)

  datatype StreamEvent = OutputStarted | ProcessError(err: SpawnError) | Closed(code: ExitCode) | RequestClosed

  const Started := Stream(false, false, [], 0, 0)

  /** One event. A reply is added only while the headers are not out, and
      commits them; the `throws` and `terms` counters move only for their
      own events. */
  function StreamStep(s: Stream, e: StreamEvent): (n: Stream)
    ensures |s.replies| <= |n.replies| <= |s.replies| + 1 && n.replies[..|s.replies|] == s.replies
    ensures s.headersSent ==> n.headersSent && n.replies == s.replies && n.streaming == s.streaming
    ensures n.replies != s.replies ==> !s.headersSent && n.headersSent && n.streaming == s.streaming
    ensures n.throws == s.throws + (if e.ProcessError? && s.headersSent then 1 else 0)
    ensures n.terms == s.terms + (if e.RequestClosed? then 1 else 0)
  {
    match e
    case OutputStarted => if s.headersSent then s else s.(headersSent := true, streaming := true)
    case ProcessError(err) =>
      if s.headersSent then s.(throws := s.throws + 1)
      else s.(headersSent := true, replies := s.replies + [ErrorReply(err)])
    case Closed(code) =>
      if Failed(code) && !s.headersSent then s.(headersSent := true, replies := s.replies + [CloseReply(code)]) else s
    case RequestClosed => s.(terms := s.terms + 1)
  }

  function StreamAll(s: Stream, es: seq<StreamEvent>): Stream
    decreases |es|
  {
    if es == [] then s else StreamAll(StreamStep(s, es[0]), es[1..])
  }

  ghost predicate StreamInv(s: Stream)
  {
    && |s.replies| <= 1
    && (s.replies != [] ==> s.headersSent && !s.streaming)
    && (s.streaming ==> s.headersSent)
  }

  lemma {:induction false} StreamAllInv(s: Stream, es: seq<StreamEvent>)
    requires StreamInv(s)
    ensures StreamInv(StreamAll(s, es))
    decreases |es|
  {
    if es != [] {
      StreamAllInv(StreamStep(s, es[0]), es[1..]);
    }
  }

  /** A download sends at most one JSON reply, and none once its output has
      started; a second `error` after the headers throws rather than
      replying. */
  lemma AtMostOneReply(es: seq<StreamEvent>)
    ensures |StreamAll(Started, es).replies| <= 1
    ensures StreamAll(Started, es).streaming ==> StreamAll(Started, es).replies == []
  {
    StreamAllInv(Started, es);
  }

  /** The `close` handler replies 500 DOWNLOAD_FAILED only for a nonzero code
      while the headers are not out, and never throws. */
  lemma CloseDecision(s: Stream, code: ExitCode)
    ensures Failed(code) && !s.headersSent ==>
      StreamStep(s, Closed(code)).replies == s.replies + [Reply(500, "yt-dlp process exited with code " + ExitCodeText(code), Some("DOWNLOAD_FAILED"))]
    ensures !Failed(code) || s.headersSent ==> StreamStep(s, Closed(code)) == s
    ensures StreamStep(s, Closed(code)).throws == s.throws
  {
  }

  /** Unlike `close`, the `error` handler does not test `headersSent`: after
      the headers are out it sends nothing and its `json` call throws. */
  lemma ErrorAfterHeadersThrows(s: Stream, err: SpawnError)
    requires s.headersSent
    ensures StreamStep(s, ProcessError(err)).replies == s.replies
    ensures StreamStep(s, ProcessError(err)).throws == s.throws + 1
    ensures StreamStep(s, Closed(Exited(1))).throws == s.throws
  {
  }

  /** Once the piped output has committed the headers (at its first byte or
      by ending the response), a failing `close` sends nothing: its reply
      is reachable only while no output event has happened. */
  lemma CloseAfterOutputIsSilent(code: ExitCode)
    ensures StreamAll(Started, [OutputStarted, Closed(code)]).replies == []
    ensures StreamAll(Started, [Closed(code)]).replies == (if Failed(code) then [CloseReply(code)] else [])
  {
    var s1 := StreamStep(Started, OutputStarted);
    assert s1.headersSent && s1.replies == [];
    assert [OutputStarted, Closed(code)][1..] == [Closed(code)];
    assert [Closed(code)][1..] == [];
    assert StreamAll(s1, [Closed(code)]) == StreamAll(StreamStep(s1, Closed(code)), []);
    assert StreamAll(Started, [Closed(code)]) == StreamAll(StreamStep(Started, Closed(code)), []);
  }

  /** The message of a failed close names the code it came with: two
      different codes never give the same reply. */
  lemma CloseReplyNamesCode(a: ExitCode, b: ExitCode)
    requires CloseReply(a) == CloseReply(b)
    ensures a == b
  {
    var prefix := "yt-dlp process exited with code ";
    assert CloseReply(a).error[|prefix|..] == CloseReply(b).error[|prefix|..];
    ExitCodeTextInjective(a, b);
  }

  /** A missing yt-dlp: the `error` event (ENOENT) replies 500
      YTDLP_NOT_FOUND, and the `close` that follows it adds nothing. */
  lemma MissingBinaryScenario(message: string, code: ExitCode)
    ensures StreamAll(Started, [ProcessError(SpawnError(Some("ENOENT"), message)), Closed(code)]).replies ==
      [Reply(500, NotFoundMessage, Some("YTDLP_NOT_FOUND"))]
  {
    var es := [ProcessError(SpawnError(Some("ENOENT"), message)), Closed(code)];
    var s1 := StreamStep(Started, es[0]);
    assert s1.headersSent && s1.replies == [Reply(500, NotFoundMessage, Some("YTDLP_NOT_FOUND"))];
    assert es[1..][1..] == [];
    assert StreamAll(s1, es[1..]) == StreamStep(s1, es[1]);
  }

  /** The response object and the process handle the closures share. */
  class DownloadResponse {
    var headersSent: bool
    var streaming: bool
    var replies: seq<Reply>
    var terms: nat
    var throws: nat

    function State(): Stream
      reads this
    {
      Stream(headersSent, streaming, replies, terms, throws)
    }

    constructor ()
      ensures State() == Started
    {
      headersSent, streaming, replies, terms, throws := false, false, [], 0, 0;
    }

    method OnOutput()
      modifies this
      ensures State() == StreamStep(old(State()), OutputStarted)
    {
      if !headersSent {
        headersSent, streaming := true, true;
      }
    }

    method OnError(err: SpawnError)
      modifies this
      ensures State() == StreamStep(old(State()), ProcessError(err))
    {
      if headersSent {
        throws := throws + 1;
      } else if err.errno == Some("ENOENT") {
        replies := replies + [Reply(500, NotFoundMessage, Some("YTDLP_NOT_FOUND"))];
        headersSent := true;
      } else {
        replies := replies + [Reply(500, err.message, Some("DOWNLOAD_ERROR"))];
        headersSent := true;
      }
    }

    method OnClose(code: ExitCode)
      modifies this
      ensures State() == StreamStep(old(State()), Closed(code))
    {
      if Failed(code) && !headersSent {
        replies := replies + [CloseReply(code)];
        headersSent := true;
      }
    }

    method OnRequestClose()
      modifies this
      ensures State() == StreamStep(old(State()), RequestClosed)
    {
      terms := terms + 1;
    }
  }
}
