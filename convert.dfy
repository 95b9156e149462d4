/** The `/convert` route before any process runs: the yt-dlp diagnostic
    classifier, request validation, the yt-dlp and ffmpeg argument lists and
    the streaming response headers. */
module Convert {
  import opened Common
  import opened Text

  /** The code and HTTP status a yt-dlp failure is reported with. */
  datatype ErrorClass = ErrorClass(code: string, status: int)

  const YtdlpError := ErrorClass("YTDLP_ERROR", 500)

  /** The classifier's phrases in priority order, matched against the
      lower-cased diagnostic text. */
  const ConvertRules: seq<(string, ErrorClass)> := [
    ("unsupported url", ErrorClass("UNSUPPORTED_URL", 400)),
    ("private video", ErrorClass("PRIVATE_VIDEO", 403)),
    ("video unavailable", ErrorClass("VIDEO_UNAVAILABLE", 404)),
    ("timeout", ErrorClass("YTDLP_TIMEOUT", 504))
  ]

  /** `classifyYtdlpError`: lower-cases the text and returns the class of the
      first phrase in `ConvertRules` that occurs, else YTDLP_ERROR/500. */
  function ClassifyYtdlpError(stderr: string): (r: ErrorClass)
    ensures r == FirstMatch(ConvertRules, Lower(stderr), YtdlpError)
    ensures r.status in {400, 403, 404, 504, 500}
  {
    var message := Lower(stderr);
    FirstMatchTail(ConvertRules, message, YtdlpError, 3);
    FirstMatchTail(ConvertRules, message, YtdlpError, 2);
    if Contains(message, "unsupported url") then ErrorClass("UNSUPPORTED_URL", 400)
    else if Contains(message, "private video") then ErrorClass("PRIVATE_VIDEO", 403)
    else if Contains(message, "video unavailable") then ErrorClass("VIDEO_UNAVAILABLE", 404)
    else if Contains(message, "timeout") then ErrorClass("YTDLP_TIMEOUT", 504)
    else YtdlpError
  }

  /** Each status is given exactly when its phrase occurs (in any letter case)
      and no phrase of higher priority does; otherwise YTDLP_ERROR/500. */
  lemma ClassifyPriority(stderr: string, k: int)
    requires 0 <= k < |ConvertRules|
    ensures ClassifyYtdlpError(stderr) == ConvertRules[k].1 <==>
      Contains(Lower(stderr), ConvertRules[k].0) && forall j :: 0 <= j < k ==> !Contains(Lower(stderr), ConvertRules[j].0)
  {
    var message := Lower(stderr);
    if Contains(message, ConvertRules[k].0) && forall j :: 0 <= j < k ==> !Contains(message, ConvertRules[j].0) {
      FirstMatchPicksEarliest(ConvertRules, message, YtdlpError, k);
    }
    if ClassifyYtdlpError(stderr) == ConvertRules[k].1 {
      FirstMatchChosen(ConvertRules, message, YtdlpError, k);
    }
  }

  lemma ClassifyFallback(stderr: string)
    requires forall j :: 0 <= j < |ConvertRules| ==> !Contains(Lower(stderr), ConvertRules[j].0)
    ensures ClassifyYtdlpError(stderr) == ErrorClass("YTDLP_ERROR", 500)
  {
    FirstMatchFallsBack(ConvertRules, Lower(stderr), YtdlpError);
  }

  lemma ClassifyEmpty()
    ensures ClassifyYtdlpError("") == ErrorClass("YTDLP_ERROR", 500)
  {
  }

  /** Letter case never matters: two texts equal up to case classify alike. */
  lemma ClassifyIgnoresCase(s: string, t: string)
    requires Lower(s) == Lower(t)
    ensures ClassifyYtdlpError(s) == ClassifyYtdlpError(t)
  {
  }

  lemma ClassifyOfLower(s: string)
    ensures ClassifyYtdlpError(Lower(s)) == ClassifyYtdlpError(s)
  {
    LowerIdempotent(s);
  }

  /** A text with "private video" written in any letter case, and no
      "unsupported url", is PRIVATE_VIDEO/403. */
  lemma ClassifyPrivateAnyCase(stderr: string, phrase: string)
    requires Lower(phrase) == "private video"
    requires Contains(stderr, phrase)
    requires !Contains(Lower(stderr), "unsupported url")
    ensures ClassifyYtdlpError(stderr) == ErrorClass("PRIVATE_VIDEO", 403)
  {
    LowerKeepsContains(stderr, phrase);
  }

  lemma LowerPrivateVideo()
    ensures Lower("Private video") == "private video"
  {
    var s := "Private video";
    assert forall i :: 0 <= i < |s| ==> Lower(s)[i] == "private video"[i];
  }

  /** yt-dlp's own wording, "ERROR: [..] Private video", is PRIVATE_VIDEO/403. */
  lemma ClassifyPrivateVideo(stderr: string)
    requires Contains(stderr, "Private video")
    requires !Contains(Lower(stderr), "unsupported url")
    ensures ClassifyYtdlpError(stderr) == ErrorClass("PRIVATE_VIDEO", 403)
  {
    LowerPrivateVideo();
    ClassifyPrivateAnyCase(stderr, "Private video");
  }

  datatype AudioFormat = Mp3 | M4a

  function FormatName(f: AudioFormat): string
  {
    match f
    case Mp3 => "mp3"
    case M4a => "m4a"
  }

  /** `['mp3', 'm4a'].includes(format)`, as a parse into `AudioFormat`. */
  function ParseFormat(name: string): (r: Option<AudioFormat>)
    ensures r.Some? <==> name == "mp3" || name == "m4a"
    ensures r.Some? ==> FormatName(r.value) == name
  {
    if name == "mp3" then Some(Mp3) else if name == "m4a" then Some(M4a) else None
  }

  lemma FormatNameRoundTrip(f: AudioFormat)
    ensures ParseFormat(FormatName(f)) == Some(f)
  {
  }

  /** `format ? format.toLowerCase() : 'mp3'`. */
  function NormalizeFormat(format: Option<string>): (r: string)
    ensures !Present(format) ==> r == "mp3"
    ensures Present(format) ==> r == Lower(format.value)
    ensures IsLower(r)
  {
    LowerIsLower(if Present(format) then format.value else "");
    if Present(format) then Lower(format.value) else "mp3"
  }

  /** The ffmpeg command line: read the pipe, drop video, encode at 192k. */
  function FfmpegArgs(f: AudioFormat): (args: seq<string>)
    ensures |args| == 10
    ensures args[..4] == ["-i", "pipe:0", "-vn", "-acodec"]
    ensures args[5..8] == ["-b:a", "192k", "-f"] && args[9] == "pipe:1"
    ensures args[4] == (if f == Mp3 then "libmp3lame" else "aac")
    ensures args[8] == (if f == Mp3 then "mp3" else "ipod")
  {
    match f
    case Mp3 => ["-i", "pipe:0", "-vn", "-acodec", "libmp3lame", "-b:a", "192k", "-f", "mp3", "pipe:1"]
    case M4a => ["-i", "pipe:0", "-vn", "-acodec", "aac", "-b:a", "192k", "-f", "ipod", "pipe:1"]
  }

  /** The `Content-Type`: an audio type, a different one per format. */
  function ContentType(f: AudioFormat): (t: string)
    ensures |t| > 6 && t[..6] == "audio/"
    ensures t == "audio/mpeg" <==> f == Mp3
    ensures f == M4a ==> t == "audio/mp4"
  {
    if f == Mp3 then "audio/mpeg" else "audio/mp4"
  }

  /** The `Content-Disposition`: an attachment named `audio.<format>`. */
  function Disposition(f: AudioFormat): (d: string)
    ensures DispositionExtension(d) == Some(FormatName(f))
  {
    DispositionReadsBack(FormatName(f));
    "attachment; filename=\"audio." + FormatName(f) + "\""
  }

  /** The file name offered for download, read back from the header. */
  function DispositionExtension(header: string): Option<string>
  {
    var prefix := "attachment; filename=\"audio.";
    if |header| > |prefix| && prefix <= header && header[|header| - 1] == '"'
    then Some(header[|prefix|..|header| - 1])
    else None
  }

  lemma DispositionReadsBack(name: string)
    requires name != []
    ensures DispositionExtension("attachment; filename=\"audio." + name + "\"") == Some(name)
  {
    var prefix := "attachment; filename=\"audio.";
    var header := prefix + name + "\"";
    assert header[|prefix|..|header| - 1] == name;
  }

  /** The headers are fixed by the format alone, and the format can be read
      back from either of them. */
  lemma HeadersDetermineFormat(f: AudioFormat, g: AudioFormat)
    ensures DispositionExtension(Disposition(f)) == Some(FormatName(f))
    ensures ContentType(f) == ContentType(g) ==> f == g
    ensures DispositionExtension(Disposition(f)) == DispositionExtension(Disposition(g)) ==> f == g
  {
    var prefix := "attachment; filename=\"audio.";
    assert Disposition(f)[|prefix|..|Disposition(f)| - 1] == FormatName(f);
    assert Disposition(g)[|prefix|..|Disposition(g)| - 1] == FormatName(g);
  }

  /** `ytArgs`: `-f bestaudio/best -o -`, then `--proxy p` when PROXY_URL is
      set, then the url. */
  method BuildYtArgs(url: string, proxy: Option<string>) returns (args: seq<string>)
    ensures |args| == if Present(proxy) then 7 else 5
    ensures args[..4] == ["-f", "bestaudio/best", "-o", "-"]
    ensures Present(proxy) ==> args[4..6] == ["--proxy", proxy.value]
    ensures args[|args| - 1] == url
  {
    args := ["-f", "bestaudio/best", "-o", "-"];
    if Present(proxy) {
      args := args + ["--proxy", proxy.value];
    }
    args := args + [url];
  }

  /** What the handler does before anything streams: reject, or start both
      processes with these command lines and set these headers. */
  datatype ConvertStart =
    | Rejected(reply: Reply)
    | Spawned(format: AudioFormat, ytArgs: seq<string>, ffmpegArgs: seq<string>, contentType: string, disposition: string)

  /** Validation and setup of one `/convert` request; `proxy` is PROXY_URL. */
  method StartConvert(url: Option<string>, format: Option<string>, proxy: Option<string>) returns (s: ConvertStart)
    ensures !Present(url) ==> s == Rejected(Reply(400, "url is required", None))
    ensures Present(url) && ParseFormat(NormalizeFormat(format)).None? ==> s == Rejected(Reply(400, "invalid format", None))
    ensures s.Spawned? <==> Present(url) && ParseFormat(NormalizeFormat(format)).Some?
    ensures s.Spawned? ==>
      && Some(s.format) == ParseFormat(NormalizeFormat(format))
      && |s.ytArgs| == (if Present(proxy) then 7 else 5)
      && s.ytArgs[..4] == ["-f", "bestaudio/best", "-o", "-"]
      && (Present(proxy) ==> s.ytArgs[4..6] == ["--proxy", proxy.value])
      && s.ytArgs[|s.ytArgs| - 1] == url.value
      && s.ffmpegArgs == FfmpegArgs(s.format)
      && s.contentType == ContentType(s.format)
      && s.disposition == Disposition(s.format)
  {
    if !Present(url) {
      return Rejected(Reply(400, "url is required", None));
    }
    var name := NormalizeFormat(format);
    var parsed := ParseFormat(name);
    if parsed.None? {
      return Rejected(Reply(400, "invalid format", None));
    }
    var f := parsed.value;
    var ytArgs := BuildYtArgs(url.value, proxy);
    s := Spawned(f, ytArgs, FfmpegArgs(f), ContentType(f), Disposition(f));
  }

  /** An absent or empty format means mp3, and the format is matched in any
      letter case. */
  lemma FormatDefaultsAndCase(format: Option<string>)
    ensures !Present(format) ==> ParseFormat(NormalizeFormat(format)) == Some(Mp3)
    ensures Present(format) && Lower(format.value) == "m4a" ==> ParseFormat(NormalizeFormat(format)) == Some(M4a)
  {
  }
}
