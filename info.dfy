/** The `GET /info` route: validation, the call to `getVideoInfo`, and the
    case-sensitive classification of a rejection's message. */
module Info {
  import opened Common
  import opened Text
  import Convert
  import Ytdlp

  /** The handler's phrases in priority order, matched against the message
      exactly as written (no lower-casing). */
  const InfoRules: seq<(string, string)> := [
    ("not found", "YTDLP_NOT_FOUND"),
    ("Unsupported URL", "UNSUPPORTED_URL"),
    ("Private video", "PRIVATE_VIDEO"),
    ("Video unavailable", "VIDEO_UNAVAILABLE")
  ]

  /** The `code` of the catch block: the code of the first phrase in
      `InfoRules` the message contains, else UNKNOWN_ERROR. */
  function InfoErrorCode(message: string): (code: string)
    ensures code == FirstMatch(InfoRules, message, "UNKNOWN_ERROR")
    ensures code in {"YTDLP_NOT_FOUND", "UNSUPPORTED_URL", "PRIVATE_VIDEO", "VIDEO_UNAVAILABLE", "UNKNOWN_ERROR"}
  {
    FirstMatchTail(InfoRules, message, "UNKNOWN_ERROR", 3);
    FirstMatchTail(InfoRules, message, "UNKNOWN_ERROR", 2);
    if Contains(message, "not found") then "YTDLP_NOT_FOUND"
    else if Contains(message, "Unsupported URL") then "UNSUPPORTED_URL"
    else if Contains(message, "Private video") then "PRIVATE_VIDEO"
    else if Contains(message, "Video unavailable") then "VIDEO_UNAVAILABLE"
    else "UNKNOWN_ERROR"
  }

  /** Each code is given exactly when its phrase occurs and no phrase of
      higher priority does. */
  lemma InfoPriority(message: string, k: int)
    requires 0 <= k < |InfoRules|
    ensures InfoErrorCode(message) == InfoRules[k].1 <==>
      Contains(message, InfoRules[k].0) && forall j :: 0 <= j < k ==> !Contains(message, InfoRules[j].0)
  {
    if Contains(message, InfoRules[k].0) && forall j :: 0 <= j < k ==> !Contains(message, InfoRules[j].0) {
      FirstMatchPicksEarliest(InfoRules, message, "UNKNOWN_ERROR", k);
    }
    if InfoErrorCode(message) == InfoRules[k].1 {
      FirstMatchChosen(InfoRules, message, "UNKNOWN_ERROR", k);
    }
  }

  lemma InfoFallback(message: string)
    requires forall j :: 0 <= j < |InfoRules| ==> !Contains(message, InfoRules[j].0)
    ensures InfoErrorCode(message) == "UNKNOWN_ERROR"
  {
    FirstMatchFallsBack(InfoRules, message, "UNKNOWN_ERROR");
  }

  /** "not found" outranks every other phrase: a message that also says
      "Private video" is still YTDLP_NOT_FOUND. */
  lemma NotFoundWins(message: string)
    requires Contains(message, "not found")
    ensures InfoErrorCode(message) == "YTDLP_NOT_FOUND"
  {
  }

  /** The rejection `getVideoInfo` gives for a missing binary is classified
      as YTDLP_NOT_FOUND. */
  lemma MissingBinaryCode()
    ensures InfoErrorCode(NotFoundMessage) == "YTDLP_NOT_FOUND"
  {
    assert NotFoundMessage[7..16] == "not found";
    OccursGivesContains(NotFoundMessage, "not found", 7);
  }

  /** The two classifiers disagree on lower-case diagnostics: a text that
      says "private video" only in lower case is PRIVATE_VIDEO/403 on
      `/convert` but UNKNOWN_ERROR on `/info`. */
  lemma LowerCasePrivateDiffers(text: string)
    requires IsLower(text)
    requires Contains(text, "private video")
    requires !Contains(text, "not found") && !Contains(text, "unsupported url")
    ensures InfoErrorCode(text) == "UNKNOWN_ERROR"
    ensures Convert.ClassifyYtdlpError(text) == Convert.ErrorClass("PRIVATE_VIDEO", 403)
  {
    LowerTextMissesUpperPhrase(text, "Unsupported URL", 0);
    LowerTextMissesUpperPhrase(text, "Private video", 0);
    LowerTextMissesUpperPhrase(text, "Video unavailable", 0);
    InfoFallback(text);
    LowerOfLower(text);
  }

  /** What the client gets: nothing yet while the promise is pending, the
      metadata with status 200, or a JSON error reply. */
  datatype InfoResponse<J> = Awaiting | Sent(value: J) | Error(reply: Reply)

  /** The handler after `await getVideoInfo(..)`: the value is sent as it
      is; a rejection becomes 500 with its message and the classified code. */
  function Complete<J>(outcome: Ytdlp.Settled<J>): (r: InfoResponse<J>)
    ensures outcome.Pending? <==> r.Awaiting?
    ensures outcome.Resolved? <==> r.Sent?
    ensures outcome.Resolved? ==> r.value == outcome.value
    ensures outcome.Rejected? ==>
      && r.Error? && r.reply.status == 500
      && r.reply.error == outcome.failure.message
      && r.reply.code == Some(InfoErrorCode(outcome.failure.message))
  {
    match outcome
    case Pending => Awaiting
    case Resolved(v) => Sent(v)
    case Rejected(f) => Error(Reply(500, f.message, Some(InfoErrorCode(f.message))))
  }

  /** One `/info` request. The process is abstracted by `probe`, which gives
      the settlement of `getVideoInfo` for a command line; the three proxy
      parameters are PROXY_URL, HTTP_PROXY and HTTPS_PROXY. `args` is the
      command line yt-dlp was started with, if it was. */
  method HandleInfo<J>(url: Option<string>, proxyUrl: Option<string>, httpProxy: Option<string>,
                       httpsProxy: Option<string>, probe: seq<string> -> Ytdlp.Settled<J>)
    returns (r: InfoResponse<J>, args: Option<seq<string>>)
    ensures !Present(url) <==> args.None?
    ensures !Present(url) ==> r == Error(Reply(400, "URL parameter is required", Some("MISSING_URL")))
    ensures Present(url) ==>
      var proxy := ResolveProxy(proxyUrl, httpProxy, httpsProxy);
      && |args.value| == (if proxy.Some? then 9 else 7)
      && args.value[..5] == ["--dump-json", "--skip-download", "--no-warnings", "--no-call-home", "--format"]
      && args.value[5] == Ytdlp.InfoFormat
      && (proxy.Some? ==> args.value[6..8] == ["--proxy", proxy.value])
      && args.value[|args.value| - 1] == url.value
      && r == Complete(probe(args.value))
  {
    if !Present(url) {
      r := Error(Reply(400, "URL parameter is required", Some("MISSING_URL")));
      args := None;
      return;
    }
    var proxy := ResolveProxy(proxyUrl, httpProxy, httpsProxy);
    var cmd := Ytdlp.BuildInfoArgs(url.value, proxy);
    args := Some(cmd);
    r := Complete(probe(cmd));
  }

  /** Every failure of a request that got past validation is a 500 whose
      code is one of the five; 400 is only for a missing url. */
  lemma FailureStatuses<J>(outcome: Ytdlp.Settled<J>)
    ensures Complete(outcome).Error? ==> Complete(outcome).reply.status == 500
    ensures Complete(outcome).Error? ==>
      Complete(outcome).reply.code.value in {"YTDLP_NOT_FOUND", "UNSUPPORTED_URL", "PRIVATE_VIDEO", "VIDEO_UNAVAILABLE", "UNKNOWN_ERROR"}
  {
  }

  /** A yt-dlp that is not installed: `/info` replies 500 YTDLP_NOT_FOUND
      with the fixed message. */
  lemma MissingBinaryReply<J>(message: string, code: ExitCode, parse: string -> Ytdlp.ParseOutcome<J>)
    ensures Complete(Ytdlp.ProbeAll(Ytdlp.Spawned(), [Ytdlp.ProcessError(SpawnError(Some("ENOENT"), message)), Ytdlp.Closed(code)], parse).settled) ==
      Error(Reply(500, NotFoundMessage, Some("YTDLP_NOT_FOUND")))
  {
    Ytdlp.MissingBinary(message, code, parse);
    MissingBinaryCode();
  }
}
