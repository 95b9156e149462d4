# yt-dlp-server: the decision layer, modelled in Dafny

yt-dlp-server is an Express service that puts HTTP in front of two external
tools. yt-dlp fetches remote media and ffmpeg re-encodes it. This project
models the part of the server that makes decisions around those tools:

- `/convert` validates a url and an audio format. It builds the yt-dlp and
  ffmpeg command lines and the streaming headers. It then coordinates the two
  processes: it collects their diagnostics and kills them on disconnect,
  failure or timeout. It classifies yt-dlp's diagnostics into a code and a
  status, and it sends at most one JSON error reply.
- `GET /download` and `POST /download` build a yt-dlp command line. The two
  verbs judge `extract_audio` differently. The route streams yt-dlp's output
  and answers spawn errors. It answers a failing exit only while no output
  has committed the headers.
- `getVideoInfo` runs yt-dlp in JSON-dump mode. It collects stdout and stderr
  and settles a promise on `close` or `error`.
- `GET /info` validates the url, calls `getVideoInfo`, and classifies a
  rejection's message with a second, case-sensitive table.

Modules, one per file:

- `Common` (common.dfy): shared values. These are optional values,
  JavaScript truthiness, the JSON reply, exit codes (a number, or null after
  a signal), spawn errors, and the `PROXY_URL || HTTP_PROXY || HTTPS_PROXY`
  lookup.
- `Text` (text.dfy): the string operations the handlers use. These are
  `toLowerCase`, `includes`, `trim` and number rendering, plus `FirstMatch`,
  an ordered phrase table read from the top.
- `Convert` (convert.dfy): the classifier and the request checks of
  `/convert`, and its command lines and headers.
- `ConvertRun` (convert_run.dfy): a running conversion.
  - `Run` is its state and `Step` is the effect of one event. `Inv` is the
    invariant every event keeps.
  - The class `ConvertPipeline` holds the same state in mutable fields. Each
    event handler is a method proved to perform `Step`.
- `Download` (download.dfy): both download routes. It has the same split: a
  pure `Stream` with `StreamStep`, and the class `DownloadResponse`.
- `Ytdlp` (ytdlp.dfy): `getVideoInfo`. The pure `Probe` with `ProbeStep`
  sits beside the class `InfoProcess`. JSON parsing is the parameter `parse`.
- `Info` (info.dfy): the `/info` handler. The whole yt-dlp run is the
  parameter `probe`.

Environment variables, request fields and process events are parameters or
events. Each event handler runs to completion before the next one starts,
as Node runs them.

### Behaviour worth knowing

- `classifyYtdlpError` tests four phrases on the lower-cased stderr, in
  this order: "unsupported url", "private video", "video unavailable" and
  "timeout".
- On `/convert`, a client disconnect only kills the processes. If yt-dlp
  then exits before output has started, either by the kill's signal or
  otherwise, the exit handler still replies.
  `ConvertRun.CancelledRunStillReplies` shows this.
- `/info` does not reuse that classifier. Its own table is case-sensitive
  and puts "not found" first. `Info.LowerCasePrivateDiffers` shows that the
  two tables disagree.

## Model

| member | source | states |
|---|---|---|
| Common.ResolveProxy | src/routes/download.js:32-33 | The proxy is set exactly when one of PROXY_URL, HTTP_PROXY, HTTPS_PROXY is non-empty. It is the first non-empty one in that order, and a set proxy is never empty. |
| Common.PresentIsTruthy | src/routes/download.js:17 | Treating an optional string as present exactly when it is non-empty agrees with JavaScript truthiness of that value. |
| Common.FalsyValues | src/routes/download.js:43 | A value is falsy exactly when it is undefined, null, false, 0 or the empty string. Every other value is truthy. |
| Common.ExitCodeTextInjective | src/routes/download.js:71 | Two exit codes render as the same text only when they are the same code. A number never renders as "null". |
| Text.Lower | src/routes/convert.js:7 | Lower-casing keeps the length and maps each character to its lower-case form. |
| Text.LowerIdempotent | src/routes/convert.js:7 | Lower-casing twice gives the same text as lower-casing once. |
| Text.ContainsMeansOccurs | src/routes/convert.js:8-11 | `includes` holds exactly when the phrase occurs as a contiguous slice at some index. |
| Text.LowerKeepsContains | src/routes/convert.js:7-9 | A phrase in the original text, lower-cased, is in the lower-cased text. |
| Text.LowerTextMissesUpperPhrase | src/routes/info.js:33-37 | A text with no upper-case letter contains no phrase that has one. |
| Text.Trim | src/routes/convert.js:70 | `trim` gives the middle slice of the text. Everything cut off on either side is white space, and the result neither starts nor ends with white space. |
| Text.TrimEmptyOnlyForSpace | src/utils/ytdlp.js:47 | `trim` gives the empty text exactly when the text is all white space, so the fallback message applies exactly then. |
| Text.IntToString | src/routes/download.js:71 | The rendered number reads back as the number it came from. A number that is not negative renders as its canonical digits. A negative one is '-' followed by the digits of its magnitude. |
| Text.NatToString | src/routes/download.js:71 | A natural number renders as a non-empty run of decimal digits with no leading zero that reads back as the number. |
| Text.CanonicalDecimal | src/routes/download.js:71 | Any non-empty run of digits with no leading zero that reads as the number is exactly the rendered text, so the rendering is the canonical decimal. |
| Text.IntToStringInjective | src/routes/download.js:71 | Two different numbers never render as the same text. |
| Text.OrElse | src/routes/convert.js:70 | JavaScript's `or` on two strings keeps a non-empty first string, and gives the second for the empty text. |
| Text.FirstMatchPicksEarliest | src/routes/convert.js:6-13 | An ordered phrase table returns the entry of the earliest phrase that occurs. |
| Text.FirstMatchChosen | src/routes/convert.js:6-13 | In a table with distinct results, getting an entry's result means its phrase occurs and no earlier phrase does. This is the converse of the rule above. |
| Text.FirstMatchFallsBack | src/routes/convert.js:12 | When no phrase of the table occurs, the table returns its fallback. |
| Convert.ClassifyYtdlpError | src/routes/convert.js:6-13 | The if-chain is the ordered table `ConvertRules` read over the lower-cased text. The status is always one of 400, 403, 404, 504 and 500. |
| Convert.ClassifyPriority | src/routes/convert.js:8-11 | Each class is chosen exactly when its phrase occurs in any letter case and no phrase ranked above it occurs. |
| Convert.ClassifyFallback | src/routes/convert.js:12 | A text that contains none of the four phrases is YTDLP_ERROR/500. |
| Convert.ClassifyEmpty | src/routes/convert.js:12 | The empty text is YTDLP_ERROR/500. |
| Convert.ClassifyIgnoresCase | src/routes/convert.js:7 | Two texts that are equal up to letter case get the same class. |
| Convert.ClassifyOfLower | src/routes/convert.js:7 | Lower-casing a text first does not change its class. |
| Convert.ClassifyPrivateAnyCase | src/routes/convert.js:9 | "private video" in any letter case, with no "unsupported url", gives PRIVATE_VIDEO/403. |
| Convert.ClassifyPrivateVideo | src/routes/convert.js:9 | yt-dlp's own wording "Private video", with no "unsupported url", gives PRIVATE_VIDEO/403. |
| Convert.ParseFormat | src/routes/convert.js:22-24 | Exactly "mp3" and "m4a" are accepted, and an accepted format renders back to its own name. |
| Convert.FormatNameRoundTrip | src/routes/convert.js:22 | Every audio format is accepted under its own name. |
| Convert.NormalizeFormat | src/routes/convert.js:21 | An absent or empty format becomes "mp3". A given one is lower-cased, and the result never has an upper-case letter. |
| Convert.FormatDefaultsAndCase | src/routes/convert.js:21-22 | An absent or empty format selects mp3, and "M4A" in any letter case selects m4a. |
| Convert.FfmpegArgs | src/routes/convert.js:33-36 | ffmpeg gets ten arguments: read the pipe, drop video, encode at 192k and write the pipe. Only the codec (libmp3lame or aac) and the container (mp3 or ipod) depend on the format. |
| Convert.ContentType | src/routes/convert.js:55 | The Content-Type is an audio type, and it is audio/mpeg exactly for mp3. |
| Convert.Disposition | src/routes/convert.js:56 | The file name offered in the Content-Disposition reads back as `audio.` followed by the format's name. |
| Convert.HeadersDetermineFormat | src/routes/convert.js:55-56 | The disposition offers the file `audio.<format>`. Each header is different for the two formats, so the format can be read back from either. |
| Convert.BuildYtArgs | src/routes/convert.js:27-29 | yt-dlp gets `-f bestaudio/best -o -`, then `--proxy p` exactly when a proxy is set, and the url last. |
| Convert.StartConvert | src/routes/convert.js:16-56 | A missing url is rejected with 400 "url is required" with no code field. Then an unknown format is rejected with 400 "invalid format". Otherwise both processes start with the command lines above, and the headers match the format. |
| ConvertRun.TimeoutWindow | src/routes/convert.js:81 | An unset or empty CONVERT_TIMEOUT_MS gives the window 90000 ms. Otherwise the configured value is used. |
| ConvertRun.AfterKillAll | src/routes/convert.js:59-62 | Both processes end up killed. One signal is added for each process not yet killed, yt-dlp first, and nothing else changes. |
| ConvertRun.AfterFinish | src/routes/convert.js:89-93 | The timer is disarmed and both processes end up killed, with the same signals as `killAll`. The stderr texts, headers and replies are untouched. |
| ConvertRun.AfterRespond | src/routes/convert.js:70 | The reply is appended and the headers are committed. Nothing else changes. |
| ConvertRun.YtFailureReply | src/routes/convert.js:69-70 | The reply takes its status and code from the classifier, and its message is never empty. |
| ConvertRun.FfmpegFailureReply | src/routes/convert.js:77 | The reply is 500 with no code field, and its message is never empty. |
| ConvertRun.FailureMessages | src/routes/convert.js:70-77 | The message of either failure reply is the trimmed stderr when stderr is not blank. The fallback ("yt-dlp failed", "ffmpeg failed") is used exactly when stderr is only white space. |
| ConvertRun.Step | src/routes/convert.js:40-96 | One event adds at most one reply and keeps the earlier ones. Once the headers are committed they stay committed and no reply is added. A `killed` flag is never cleared. |
| ConvertRun.InitialInv | src/routes/convert.js:40-87 | The invariant holds once both processes are spawned and the timer is armed. |
| ConvertRun.KillAllSignalsOnlyLive | src/routes/convert.js:59-62 | `killAll` sends one signal to each process not yet killed and none to one already killed. Afterwards both are killed, and it changes nothing else. |
| ConvertRun.KillAllIdempotent | src/routes/convert.js:59-62 | A second `killAll` changes nothing. |
| ConvertRun.FinishIdempotent | src/routes/convert.js:89-93 | `finish` disarms the timer and leaves both processes killed. It sends no reply, and a second call changes nothing. |
| ConvertRun.KillAllInv | src/routes/convert.js:59-62 | `killAll` keeps the invariant: each process is signalled exactly once after its flag is set. |
| ConvertRun.StepInv | src/routes/convert.js:40-96 | Every event handler keeps the invariant. There is at most one reply, never alongside streamed output, and signals match the `killed` flags. |
| ConvertRun.RunAllInv | src/routes/convert.js:40-96 | Any sequence of events keeps the invariant. |
| ConvertRun.AtMostOneReply | src/routes/convert.js:66-87 | Whatever events arrive and in whatever order, a run sends at most one reply, and none once output has started. |
| ConvertRun.CommittedHeadersFreezeReplies | src/routes/convert.js:67 | Once the headers are committed, no later event adds a reply. |
| ConvertRun.YtFailureResponds | src/routes/convert.js:66-72 | A failing yt-dlp exit before the headers kills both processes. It replies with the classified status and code, and with the trimmed stderr, or "yt-dlp failed" when stderr is only white space. |
| ConvertRun.FfmpegFailureResponds | src/routes/convert.js:74-79 | A failing ffmpeg exit before the headers kills both processes. It replies 500 with no code field, and with the trimmed stderr, or "ffmpeg failed" when stderr is only white space. |
| ConvertRun.CleanExitIsSilent | src/routes/convert.js:67 | An exit with code 0 of either process changes nothing. |
| ConvertRun.TimeoutResponds | src/routes/convert.js:82-87 | The timer replies 504 CONVERT_TIMEOUT and kills both processes only while it is armed and the headers are unsent. After `finish` it does nothing. |
| ConvertRun.StepAppendsStderr | src/routes/convert.js:40-52 | A stderr chunk extends only its own process's accumulator, and no other event touches either one. |
| ConvertRun.StderrAccumulates | src/routes/convert.js:40-52 | Each accumulator is its process's stderr chunks joined in arrival order, whatever else happens. |
| ConvertRun.YtFailureFromStart | src/routes/convert.js:66-72 | yt-dlp writes text and then fails before any output. The single reply is the yt-dlp failure reply for exactly that text, and both processes are killed. |
| ConvertRun.PrivateVideoScenario | src/routes/convert.js:66-72 | yt-dlp reports "Private video" and exits 1 before any output. The client gets 403 PRIVATE_VIDEO and both processes are killed. |
| ConvertRun.TimeoutScenario | src/routes/convert.js:82-87 | A timeout before anything else gives the single reply 504, kills both processes and disarms the timer. |
| ConvertRun.CancelledRunStillReplies | src/routes/convert.js:64-72 | After a client disconnect, yt-dlp's exit by signal still produces the reply 500 "yt-dlp failed" YTDLP_ERROR. |
| ConvertRun.ConvertPipeline.constructor | src/routes/convert.js:40-87 | The new run is the initial state with the invariant, and its window is the configured timeout or 90000 ms. |
| ConvertRun.ConvertPipeline.KillAll | src/routes/convert.js:59-62 | The fields change exactly as `AfterKillAll` says. |
| ConvertRun.ConvertPipeline.Finish | src/routes/convert.js:89-93 | The fields change exactly as `AfterFinish` says. |
| ConvertRun.ConvertPipeline.Respond | src/routes/convert.js:70 | The reply is recorded and the headers are committed. |
| ConvertRun.ConvertPipeline.OnYtStderr | src/routes/convert.js:41-45 | The handler performs `Step` for the chunk and keeps the invariant. |
| ConvertRun.ConvertPipeline.OnFfmpegStderr | src/routes/convert.js:48-52 | The handler performs `Step` for the chunk and keeps the invariant. |
| ConvertRun.ConvertPipeline.OnOutput | src/routes/convert.js:57 | Piped output commits the headers as streaming, and the invariant is kept. |
| ConvertRun.ConvertPipeline.OnYtExit | src/routes/convert.js:66-72 | The handler performs `Step` for the exit and keeps the invariant. |
| ConvertRun.ConvertPipeline.OnFfmpegExit | src/routes/convert.js:74-79 | The handler performs `Step` for the exit and keeps the invariant. |
| ConvertRun.ConvertPipeline.OnTimeout | src/routes/convert.js:82-87 | The handler performs `Step` for the timer and keeps the invariant. |
| ConvertRun.ConvertPipeline.OnRequestClose | src/routes/convert.js:64 | The handler performs `Step` for a disconnect (`killAll`) and keeps the invariant. |
| ConvertRun.ConvertPipeline.OnFfmpegClose | src/routes/convert.js:95 | The handler performs `Step` (`finish`) and keeps the invariant. |
| ConvertRun.ConvertPipeline.OnResponseClose | src/routes/convert.js:96 | The handler performs `Step` (`finish`) and keeps the invariant. |
| Download.FormatOrDefault | src/routes/download.js:15 | Only an absent format becomes "best". A given one, even empty, is used as it is. |
| Download.ExtractRequested | src/routes/download.js:27-113 | GET extracts audio exactly for the strings 'true' and '1'. POST also extracts for the boolean `true`. Every such value is truthy. |
| Download.MediaType | src/routes/download.js:43 | The type is audio/mpeg exactly when `extract_audio` is truthy, otherwise video/mp4. |
| Download.PostAcceptsMore | src/routes/download.js:27-29 | POST extracts audio for every value GET does, and also for the boolean `true`, which GET ignores. |
| Download.ExtractionAndMediaType | src/routes/download.js:113-129 | Extraction always comes with audio/mpeg. The strings 'false' and '0' give audio/mpeg without extraction. |
| Download.BuildArgs | src/routes/download.js:24-38 | The args are `-f format`, then `-x --audio-format mp3` exactly when extracting, then `--proxy p` exactly when a proxy is set, then `-o - url`. |
| Download.StartDownload | src/routes/download.js:13-130 | Both routes: a missing url gives 400 MISSING_URL with the verb's message and no spawn. A throwing spawn gives 500 INTERNAL_ERROR with its message. Otherwise yt-dlp starts with the args above, the truthiness-based type and disposition `attachment`. |
| Download.ErrorReply | src/routes/download.js:54-66 | ENOENT gives 500 YTDLP_NOT_FOUND with the fixed install hint. Any other error gives 500 DOWNLOAD_ERROR with the error's own message. |
| Download.CloseReply | src/routes/download.js:69-73 | The reply is 500 DOWNLOAD_FAILED, and its message is "yt-dlp process exited with code " followed by the rendered code. |
| Download.CloseReplyNamesCode | src/routes/download.js:71 | Two different exit codes never give the same `close` reply. |
| Download.CloseAfterOutputIsSilent | src/routes/download.js:47-75 | After the output event, a failing `close` adds no reply. Without it, `close` replies DOWNLOAD_FAILED exactly for a nonzero code. |
| Download.StreamStep | src/routes/download.js:47-80 | One event adds at most one reply, and only while the headers are unsent. Once the headers are sent they stay sent and no reply is added. `throws` counts exactly the errors after the headers, and `terms` counts the disconnects. |
| Download.StreamAllInv | src/routes/download.js:47-80 | Any sequence of events keeps the invariant: at most one reply, never alongside streamed output. |
| Download.AtMostOneReply | src/routes/download.js:54-75 | A download sends at most one JSON reply, and none once its output has started. |
| Download.CloseDecision | src/routes/download.js:68-75 | `close` replies 500 DOWNLOAD_FAILED with the code in the message exactly when the code is not 0 and the headers are unsent. Otherwise it changes nothing, and it never throws. |
| Download.ErrorAfterHeadersThrows | src/routes/download.js:54-66 | After the headers are out, an `error` sends no reply and its `json` call throws. `close` never throws. |
| Download.MissingBinaryScenario | src/routes/download.js:54-75 | A missing binary gives a single reply, 500 YTDLP_NOT_FOUND. The `close` that follows adds nothing. |
| Download.DownloadResponse.constructor | src/routes/download.js:40-47 | A started download has no headers, replies, signals or throws yet. |
| Download.DownloadResponse.OnOutput | src/routes/download.js:47 | Piped output commits the headers as streaming, as `StreamStep` says. |
| Download.DownloadResponse.OnError | src/routes/download.js:54-66 | The handler performs `StreamStep` for the error. |
| Download.DownloadResponse.OnClose | src/routes/download.js:68-75 | The handler performs `StreamStep` for the close. |
| Download.DownloadResponse.OnRequestClose | src/routes/download.js:78-80 | Every disconnect sends one SIGTERM, with no `killed` guard. |
| Ytdlp.BuildInfoArgs | src/utils/ytdlp.js:12-29 | The args are the four JSON-dump flags and `--format` with the mp4 selector, then `--proxy p` exactly when a proxy is given, then the url last. |
| Ytdlp.CloseOutcome | src/utils/ytdlp.js:44-57 | `close` always settles. A nonzero code rejects with the trimmed stderr, or with "yt-dlp process exited with code <code>" when stderr is only white space. Code 0 resolves with the parsed value exactly when parsing succeeds, otherwise it rejects with "Failed to parse yt-dlp output: " and the parser's message. |
| Ytdlp.ErrorOutcome | src/utils/ytdlp.js:60-66 | ENOENT rejects with the fixed install hint. Any other error is passed on with its message and code. |
| Ytdlp.Settle | src/utils/ytdlp.js:11 | The first settlement wins. A pending promise takes the new outcome, and a settled one keeps its own. |
| Ytdlp.ProbeStep | src/utils/ytdlp.js:36-66 | A chunk grows only its own text and never settles the promise. `close` and `error` always leave it settled, and a settled promise keeps its value. |
| Ytdlp.SettledIsFinal | src/utils/ytdlp.js:11 | Once the promise is settled, no later event changes its value. |
| Ytdlp.PendingUntilTerminal | src/utils/ytdlp.js:36-42 | Output and diagnostics alone never settle the promise. |
| Ytdlp.StepAppends | src/utils/ytdlp.js:36-42 | A chunk extends only its own stream's text, and `close` and `error` touch neither text. |
| Ytdlp.StdoutAccumulates | src/utils/ytdlp.js:33-38 | `stdout` is the stdout chunks joined in arrival order, whatever else happens. |
| Ytdlp.StderrAccumulates | src/utils/ytdlp.js:34-42 | `stderr` is the stderr chunks joined in arrival order, whatever else happens. |
| Ytdlp.CloseLast | src/utils/ytdlp.js:44-58 | A `close` on a pending promise settles it with the `close` decision over the texts collected so far. |
| Ytdlp.ProbeAllAppend | src/utils/ytdlp.js:36-66 | Handling two event sequences one after the other is the same as handling their concatenation. |
| Ytdlp.ClosedRun | src/utils/ytdlp.js:33-57 | A run that writes output and then closes settles with the `close` decision over everything it wrote. |
| Ytdlp.MissingBinary | src/utils/ytdlp.js:60-62 | A missing binary rejects with the fixed message, and the `close` that follows cannot change it. |
| Ytdlp.InfoProcess.constructor | src/utils/ytdlp.js:33-34 | Both texts start empty and the promise is pending. |
| Ytdlp.InfoProcess.OnStdout | src/utils/ytdlp.js:36-38 | The handler performs `ProbeStep` for the chunk. |
| Ytdlp.InfoProcess.OnStderr | src/utils/ytdlp.js:40-42 | The handler performs `ProbeStep` for the chunk. |
| Ytdlp.InfoProcess.OnClose | src/utils/ytdlp.js:44-58 | The handler performs `ProbeStep` for the close. |
| Ytdlp.InfoProcess.OnError | src/utils/ytdlp.js:60-66 | The handler performs `ProbeStep` for the error. |
| Info.InfoErrorCode | src/routes/info.js:30-39 | The if/else chain is the ordered, case-sensitive table `InfoRules`, and the code is one of five. |
| Info.InfoPriority | src/routes/info.js:31-38 | Each code is chosen exactly when its phrase occurs as written and no phrase ranked above it occurs. |
| Info.InfoFallback | src/routes/info.js:30 | A message with none of the four phrases is UNKNOWN_ERROR. |
| Info.NotFoundWins | src/routes/info.js:31-35 | "not found" outranks the rest, so a message that also says "Private video" is YTDLP_NOT_FOUND. |
| Info.MissingBinaryCode | src/routes/info.js:31-32 | The rejection for a missing binary is classified YTDLP_NOT_FOUND. |
| Info.LowerCasePrivateDiffers | src/routes/info.js:35 | A lower-case text that says "private video" is UNKNOWN_ERROR here but PRIVATE_VIDEO/403 for `/convert`. |
| Info.Complete | src/routes/info.js:25-44 | While the promise is pending, no reply is sent. A resolved value is sent unchanged. Every rejection becomes 500 with the original message and its classified code. |
| Info.HandleInfo | src/routes/info.js:11-46 | A missing url gives 400 MISSING_URL, and yt-dlp is never started. Otherwise yt-dlp starts with the `getVideoInfo` args for the resolved proxy, and the reply is that run's outcome. |
| Info.FailureStatuses | src/routes/info.js:41-44 | Every error reply after validation has status 500 and one of the five codes. |
| Info.MissingBinaryReply | src/routes/info.js:25-44 | Without yt-dlp installed, `/info` replies 500 YTDLP_NOT_FOUND with the fixed install hint. |

## Left out

- Process spawning, pipes, byte streaming, backpressure and signal delivery are I/O and concurrency. Each is an event (output started, exit, close, error) or a `killed` flag.
- Node's no-op kill of a process that has already exited is not modelled. A kill is recorded as a signal sent.
- src/routes/convert.js registers no `error` listener on either child process. A spawn failure there is an unhandled `error` event that Node throws. This is not modelled.
- The end of a child's output also commits the response, through `res.end()` in the pipe. The model folds this into the same "output started" event.
- Download.StreamStep: the model lets `Closed` arrive without the output event before it. In Node, a child's `close` comes only after its stdio has ended, and by then the pipe's `res.end()` has committed the headers. So on a live connection the DOWNLOAD_FAILED reply is probably never sent, and a failing run with no output ends as an empty 200 response. The model does not force that order. `Download.CloseAfterOutputIsSilent` shows what happens when the output event comes first.
- ConvertRun.AfterRespond: a reply is modelled as committing the headers even when the client has already gone. In Node, a reply to a destroyed response may leave `headersSent` false. The other process's exit handler could then attempt a second reply, which the model does not capture. Download.StreamStep makes the same simplification for the `error` and `close` replies.
- Text.Lower: only the ASCII letters are lower-cased. JavaScript's `toLowerCase` also maps other Unicode letters.
- Chunks are modelled as already-decoded strings. Decoding each `data` chunk separately can split a UTF-8 sequence, and that is not modelled.
- Numbers in request values are integers, so NaN and fractions are not modelled. Query values that are arrays are not modelled, and neither are objects or numbers as `url` or `format`.
- An unparsed `req.body` (undefined) on POST is not modelled.
- `Number(...)` parsing of CONVERT_TIMEOUT_MS is not modelled. The window is an optional integer parameter, and the timer is an event.
- `JSON.parse` is the parameter `parse` of `getVideoInfo`. The whole yt-dlp run of `/info` is the parameter `probe`.
- Ytdlp: a synchronous throw from `spawn` inside the promise executor would reject the promise. This is not modelled.
- In convert, an `async` handler's unexpected exception becomes a rejected promise. This is not modelled.
- Headers on error replies (Content-Type set before the reply) are not modelled, and neither is the Content-Length of streamed bodies.
- `console.error` logging is not modelled.
- Express routing and `res.json` serialisation are not modelled. A reply is the datatype `Reply` (status, message, optional code).
- The staged artifact store, byte ranges, temp files and metadata curation are not modelled. None of the modelled source files implements them.
