/** The life of one `/convert` run once yt-dlp and ffmpeg are started: the
    stderr accumulators, the `killed` flag of each process, the response's
    `headersSent`, the timeout timer, and the replies sent so far; and the
    handlers of the events that change them. `Step` is the meaning of one
    event; the class `ConvertPipeline` carries out the same handlers on
    mutable fields. */
module ConvertRun {
  import opened Common
  import opened Text
  import Convert

  datatype Proc = Yt | Ffmpeg

  /** The kill signals sent so far are recorded in `signals`; `streaming`
      says the headers went out with the first byte of ffmpeg's output
      rather than with a JSON reply. */
  datatype Run = Run(
    ytError: string,
    ffmpegError: string,
    ytKilled: bool,
    ffmpegKilled: bool,
    headersSent: bool,
    streaming: bool,
    timerArmed: bool,
    signals: seq<Proc>,
    replies: seq<Reply>)

  /** What the handler reacts to, each delivered on its own. */
  datatype Event =
    | YtStderr(chunk: string)
    | FfmpegStderr(chunk: string)
    | OutputStarted
    | YtExit(code: ExitCode)
    | FfmpegExit(code: ExitCode)
    | TimerFired
    | RequestClosed
    | FfmpegClosed
    | ResponseClosed

  const DefaultTimeoutMs := 90000

  /** The window used when CONVERT_TIMEOUT_MS is unset or empty. */
  function TimeoutWindow(configured: Option<int>): (ms: int)
    ensures configured.None? ==> ms == 90000
    ensures configured.Some? ==> ms == configured.value
  {
    if configured.Some? then configured.value else DefaultTimeoutMs
  }

  /** Right after both processes are spawned and the timer is armed. */
  function Initial(): Run
  {
    Run("", "", false, false, false, false, true, [], [])
  }

  function Killed(r: Run, p: Proc): bool
  {
    if p == Yt then r.ytKilled else r.ffmpegKilled
  }

  /** `killAll`: SIGKILL to each process not yet killed. */
  function AfterKillAll(r: Run): (k: Run)
    ensures k.ytKilled && k.ffmpegKilled
    ensures k.signals == r.signals + (if r.ytKilled then [] else [Yt]) + (if r.ffmpegKilled then [] else [Ffmpeg])
    ensures k.ytError == r.ytError && k.ffmpegError == r.ffmpegError && k.timerArmed == r.timerArmed
    ensures k.headersSent == r.headersSent && k.streaming == r.streaming && k.replies == r.replies
  {
    var r1 := if !r.ytKilled then r.(ytKilled := true, signals := r.signals + [Yt]) else r;
    if !r1.ffmpegKilled then r1.(ffmpegKilled := true, signals := r1.signals + [Ffmpeg]) else r1
  }

  /** `finish`: clear the timer, then the same kills as `killAll`. */
  function AfterFinish(r: Run): (f: Run)
    ensures !f.timerArmed && f.ytKilled && f.ffmpegKilled
    ensures f.signals == AfterKillAll(r).signals
    ensures f.ytError == r.ytError && f.ffmpegError == r.ffmpegError
    ensures f.headersSent == r.headersSent && f.streaming == r.streaming && f.replies == r.replies
  {
    AfterKillAll(r.(timerArmed := false))
  }

  /** `res.status(..).json(..)`: the reply goes out and commits the headers. */
  function AfterRespond(r: Run, reply: Reply): (a: Run)
    ensures a.headersSent && a.replies == r.replies + [reply]
    ensures a.ytError == r.ytError && a.ffmpegError == r.ffmpegError && a.timerArmed == r.timerArmed
    ensures a.ytKilled == r.ytKilled && a.ffmpegKilled == r.ffmpegKilled && a.signals == r.signals
    ensures a.streaming == r.streaming
  {
    r.(headersSent := true, replies := r.replies + [reply])
  }

  /** The reply to a failed yt-dlp: the classified status and code, and the
      trimmed stderr as the message unless it is blank. */
  function YtFailureReply(ytError: string): (reply: Reply)
    ensures reply.status == Convert.ClassifyYtdlpError(ytError).status
    ensures reply.code == Some(Convert.ClassifyYtdlpError(ytError).code)
    ensures reply.error != []
  {
    var c := Convert.ClassifyYtdlpError(ytError);
    Reply(c.status, OrElse(Trim(ytError), "yt-dlp failed"), Some(c.code))
  }

  /** The reply to a failed ffmpeg: always 500 with no code. */
  function FfmpegFailureReply(ffmpegError: string): (reply: Reply)
    ensures reply.status == 500 && reply.code.None? && reply.error != []
  {
    Reply(500, OrElse(Trim(ffmpegError), "ffmpeg failed"), None)
  }

  /** The message of either failure reply is the process's stderr with the
      white space at its ends removed, or the fixed fallback exactly when the
      stderr is blank. */
  lemma FailureMessages(text: string)
    ensures !AllSpace(text) ==> YtFailureReply(text).error == Trim(text) && FfmpegFailureReply(text).error == Trim(text)
    ensures AllSpace(text) <==> YtFailureReply(text).error == "yt-dlp failed" && FfmpegFailureReply(text).error == "ffmpeg failed"
  {
    TrimEmptyOnlyForSpace(text);
  }

  const TimeoutReply := Reply(504, "Conversion timed out", Some("CONVERT_TIMEOUT"))

  /** The effect of one event on the run. */
  function Step(r: Run, e: Event): (n: Run)
    ensures |r.replies| <= |n.replies| <= |r.replies| + 1 && n.replies[..|r.replies|] == r.replies
    ensures r.headersSent ==> n.headersSent && n.replies == r.replies
    ensures (r.ytKilled ==> n.ytKilled) && (r.ffmpegKilled ==> n.ffmpegKilled)
  {
    match e
    case YtStderr(chunk) => r.(ytError := r.ytError + chunk)
    case FfmpegStderr(chunk) => r.(ffmpegError := r.ffmpegError + chunk)
    case OutputStarted => if r.headersSent then r else r.(headersSent := true, streaming := true)
    case YtExit(code) =>
      if Failed(code) && !r.headersSent then AfterRespond(AfterKillAll(r), YtFailureReply(r.ytError)) else r
    case FfmpegExit(code) =>
      if Failed(code) && !r.headersSent then AfterRespond(AfterKillAll(r), FfmpegFailureReply(r.ffmpegError)) else r
    case TimerFired =>
      if !r.timerArmed then r
      else if r.headersSent then r.(timerArmed := false)
      else AfterRespond(AfterKillAll(r.(timerArmed := false)), TimeoutReply)
    case RequestClosed => AfterKillAll(r)
    case FfmpegClosed => AfterFinish(r)
    case ResponseClosed => AfterFinish(r)
  }

  /** The events delivered in order. */
  function RunAll(r: Run, es: seq<Event>): Run
    decreases |es|
  {
    if es == [] then r else RunAll(Step(r, es[0]), es[1..])
  }

  /** At most one reply, never both a streamed body and a reply, any reply
      commits the headers, and each process is signalled exactly when (and
      only once after) its `killed` flag is set. */
  ghost predicate Inv(r: Run)
  {
    && |r.replies| <= 1
    && (r.replies != [] ==> r.headersSent && !r.streaming)
    && (r.streaming ==> r.headersSent)
    && multiset(r.signals)[Yt] == (if r.ytKilled then 1 else 0)
    && multiset(r.signals)[Ffmpeg] == (if r.ffmpegKilled then 1 else 0)
  }

  lemma InitialInv()
    ensures Inv(Initial())
  {
  }

  /** `killAll` signals exactly the processes not yet killed, leaves both
      killed, and changes nothing else. */
  lemma KillAllSignalsOnlyLive(r: Run, p: Proc)
    ensures Killed(AfterKillAll(r), Yt) && Killed(AfterKillAll(r), Ffmpeg)
    ensures multiset(AfterKillAll(r).signals)[p] == multiset(r.signals)[p] + (if Killed(r, p) then 0 else 1)
    ensures AfterKillAll(r).(ytKilled := r.ytKilled, ffmpegKilled := r.ffmpegKilled, signals := r.signals) == r
  {
  }

  lemma KillAllIdempotent(r: Run)
    ensures AfterKillAll(AfterKillAll(r)) == AfterKillAll(r)
  {
  }

  /** `finish` disarms the timer, leaves no process unkilled, and a second
      call changes nothing. */
  lemma FinishIdempotent(r: Run)
    ensures AfterFinish(AfterFinish(r)) == AfterFinish(r)
    ensures !AfterFinish(r).timerArmed && AfterFinish(r).ytKilled && AfterFinish(r).ffmpegKilled
    ensures AfterFinish(r).replies == r.replies && AfterFinish(r).headersSent == r.headersSent
  {
  }

  lemma KillAllInv(r: Run)
    requires Inv(r)
    ensures Inv(AfterKillAll(r))
  {
    var r1 := if !r.ytKilled then r.(ytKilled := true, signals := r.signals + [Yt]) else r;
    assert multiset(r1.signals)[Yt] == 1 && multiset(r1.signals)[Ffmpeg] == multiset(r.signals)[Ffmpeg];
  }

  lemma StepInv(r: Run, e: Event)
    requires Inv(r)
    ensures Inv(Step(r, e))
  {
    match e
    case YtExit(code) =>
      if Failed(code) && !r.headersSent { KillAllInv(r); }
    case FfmpegExit(code) =>
      if Failed(code) && !r.headersSent { KillAllInv(r); }
    case TimerFired =>
      if r.timerArmed && !r.headersSent { KillAllInv(r.(timerArmed := false)); }
    case RequestClosed => KillAllInv(r);
    case FfmpegClosed => KillAllInv(r.(timerArmed := false));
    case ResponseClosed => KillAllInv(r.(timerArmed := false));
    case _ =>
  }

  lemma {:induction false} RunAllInv(r: Run, es: seq<Event>)
    requires Inv(r)
    ensures Inv(RunAll(r, es))
    decreases |es|
  {
    if es != [] {
      StepInv(r, es[0]);
      RunAllInv(Step(r, es[0]), es[1..]);
    }
  }

  /** Whatever the events and their order, a run sends at most one reply,
      and never one after the output has started streaming. */
  lemma AtMostOneReply(es: seq<Event>)
    ensures |RunAll(Initial(), es).replies| <= 1
    ensures RunAll(Initial(), es).streaming ==> RunAll(Initial(), es).replies == []
  {
    InitialInv();
    RunAllInv(Initial(), es);
  }

  /** Once the headers are committed no event adds a reply. */
  lemma {:induction false} CommittedHeadersFreezeReplies(r: Run, es: seq<Event>)
    requires r.headersSent
    ensures RunAll(r, es).headersSent
    ensures RunAll(r, es).replies == r.replies
    decreases |es|
  {
    if es != [] {
      CommittedHeadersFreezeReplies(Step(r, es[0]), es[1..]);
    }
  }

  /** A failing yt-dlp exit before the headers are out kills both processes
      and replies with the classified status and code; the message is the
      trimmed stderr, or "yt-dlp failed" when that is blank. */
  lemma YtFailureResponds(r: Run, code: ExitCode)
    requires Failed(code) && !r.headersSent
    ensures var c := Convert.ClassifyYtdlpError(r.ytError);
      && Step(r, YtExit(code)).replies == r.replies + [Reply(c.status, OrElse(Trim(r.ytError), "yt-dlp failed"), Some(c.code))]
      && Step(r, YtExit(code)).ytKilled && Step(r, YtExit(code)).ffmpegKilled
    ensures AllSpace(r.ytError) ==> Step(r, YtExit(code)).replies[|r.replies|].error == "yt-dlp failed"
  {
    TrimEmptyOnlyForSpace(r.ytError);
  }

  /** A failing ffmpeg exit before the headers are out replies 500 without a
      code field. */
  lemma FfmpegFailureResponds(r: Run, code: ExitCode)
    requires Failed(code) && !r.headersSent
    ensures Step(r, FfmpegExit(code)).replies == r.replies + [Reply(500, OrElse(Trim(r.ffmpegError), "ffmpeg failed"), None)]
    ensures Step(r, FfmpegExit(code)).ytKilled && Step(r, FfmpegExit(code)).ffmpegKilled
    ensures AllSpace(r.ffmpegError) ==> Step(r, FfmpegExit(code)).replies[|r.replies|].error == "ffmpeg failed"
  {
    TrimEmptyOnlyForSpace(r.ffmpegError);
  }

  /** A zero exit of either process changes nothing. */
  lemma CleanExitIsSilent(r: Run)
    ensures Step(r, YtExit(Exited(0))) == r
    ensures Step(r, FfmpegExit(Exited(0))) == r
  {
  }

  /** The timer replies 504 CONVERT_TIMEOUT only while it is armed and the
      headers are not out; `finish` disarms it for good. */
  lemma TimeoutResponds(r: Run)
    ensures r.timerArmed && !r.headersSent ==>
      && Step(r, TimerFired).replies == r.replies + [Reply(504, "Conversion timed out", Some("CONVERT_TIMEOUT"))]
      && Step(r, TimerFired).ytKilled && Step(r, TimerFired).ffmpegKilled
    ensures !r.timerArmed || r.headersSent ==> Step(r, TimerFired).replies == r.replies
    ensures Step(AfterFinish(r), TimerFired) == AfterFinish(r)
  {
  }

  function YtText(es: seq<Event>): string
    decreases |es|
  {
    if es == [] then "" else (if es[0].YtStderr? then es[0].chunk else "") + YtText(es[1..])
  }

  function FfmpegText(es: seq<Event>): string
    decreases |es|
  {
    if es == [] then "" else (if es[0].FfmpegStderr? then es[0].chunk else "") + FfmpegText(es[1..])
  }

  /** Only a stderr chunk of a process changes that process's accumulator. */
  lemma StepAppendsStderr(r: Run, e: Event)
    ensures Step(r, e).ytError == r.ytError + (if e.YtStderr? then e.chunk else "")
    ensures Step(r, e).ffmpegError == r.ffmpegError + (if e.FfmpegStderr? then e.chunk else "")
  {
    match e
    case YtStderr(_) =>
    case FfmpegStderr(_) =>
    case _ =>
      assert Step(r, e).ytError == r.ytError && Step(r, e).ffmpegError == r.ffmpegError;
  }

  /** Each accumulator is its process's stderr chunks joined in arrival
      order, whatever else happens meanwhile. */
  lemma StderrAccumulates(r: Run, es: seq<Event>)
    ensures RunAll(r, es).ytError == r.ytError + YtText(es)
    ensures RunAll(r, es).ffmpegError == r.ffmpegError + FfmpegText(es)
  {
    YtAccumulates(r, es);
    FfmpegAccumulates(r, es);
  }

  lemma {:induction false} YtAccumulates(r: Run, es: seq<Event>)
    ensures RunAll(r, es).ytError == r.ytError + YtText(es)
    decreases |es|
  {
    if es != [] {
      var r1 := Step(r, es[0]);
      StepAppendsStderr(r, es[0]);
      YtAccumulates(r1, es[1..]);
      var a := if es[0].YtStderr? then es[0].chunk else "";
      assert YtText(es) == a + YtText(es[1..]);
      assert (r.ytError + a) + YtText(es[1..]) == r.ytError + (a + YtText(es[1..]));
    }
  }

  lemma {:induction false} FfmpegAccumulates(r: Run, es: seq<Event>)
    ensures RunAll(r, es).ffmpegError == r.ffmpegError + FfmpegText(es)
    decreases |es|
  {
    if es != [] {
      var r1 := Step(r, es[0]);
      StepAppendsStderr(r, es[0]);
      FfmpegAccumulates(r1, es[1..]);
      var b := if es[0].FfmpegStderr? then es[0].chunk else "";
      assert FfmpegText(es) == b + FfmpegText(es[1..]);
      assert (r.ffmpegError + b) + FfmpegText(es[1..]) == r.ffmpegError + (b + FfmpegText(es[1..]));
    }
  }

  /** Two events in a row. */
  lemma RunAllPair(r: Run, a: Event, b: Event)
    ensures RunAll(r, [a, b]) == Step(Step(r, a), b)
  {
    assert [a, b][1..] == [b];
    assert [b][1..] == [];
    assert RunAll(Step(r, a), [b]) == RunAll(Step(Step(r, a), b), []);
  }

  /** yt-dlp writes `text` to stderr and exits with a failure before any
      output: the one reply is the yt-dlp failure reply for `text`. */
  lemma YtFailureFromStart(text: string, code: ExitCode)
    requires Failed(code)
    ensures var r := RunAll(Initial(), [YtStderr(text), YtExit(code)]);
      && r.replies == [YtFailureReply(text)] && r.ytKilled && r.ffmpegKilled
  {
    RunAllPair(Initial(), YtStderr(text), YtExit(code));
    var r1 := Step(Initial(), YtStderr(text));
    assert r1.ytError == text && !r1.headersSent && r1.replies == [] by {
      assert "" + text == text;
    }
    FailedYtExitReplies(r1, code);
  }

  lemma FailedYtExitReplies(r: Run, code: ExitCode)
    requires Failed(code) && !r.headersSent
    ensures Step(r, YtExit(code)).replies == r.replies + [YtFailureReply(r.ytError)]
    ensures Step(r, YtExit(code)).ytKilled && Step(r, YtExit(code)).ffmpegKilled
  {
  }

  /** yt-dlp reports "Private video" and exits 1 before any output: the
      client gets 403 PRIVATE_VIDEO and both processes are killed. */
  lemma PrivateVideoScenario(text: string)
    requires Contains(text, "Private video")
    requires !Contains(Lower(text), "unsupported url")
    ensures var r := RunAll(Initial(), [YtStderr(text), YtExit(Exited(1))]);
      && r.replies == [Reply(403, OrElse(Trim(text), "yt-dlp failed"), Some("PRIVATE_VIDEO"))]
      && r.ytKilled && r.ffmpegKilled
  {
    Convert.ClassifyPrivateVideo(text);
    YtFailureFromStart(text, Exited(1));
  }

  /** The timer fires before anything else: 504 and both processes killed. */
  lemma TimeoutScenario()
    ensures var r := RunAll(Initial(), [TimerFired]);
      && r.replies == [TimeoutReply] && r.ytKilled && r.ffmpegKilled && !r.timerArmed
  {
  }

  /** A client that disconnects before any output still gets a reply
      attempted: the kill makes yt-dlp exit by signal (code null), and that
      exit is handled as a failure because the headers are not out. */
  lemma CancelledRunStillReplies()
    ensures RunAll(Initial(), [RequestClosed, YtExit(Signalled)]).replies ==
      [Reply(500, "yt-dlp failed", Some("YTDLP_ERROR"))]
  {
    RunAllPair(Initial(), RequestClosed, YtExit(Signalled));
    var r0 := Initial();
    var r1 := Step(r0, RequestClosed);
    assert r1 == AfterKillAll(r0);
    FailedYtExitReplies(r1, Signalled);
    assert YtFailureReply("") == Reply(500, "yt-dlp failed", Some("YTDLP_ERROR")) by {
      Convert.ClassifyEmpty();
      FailureMessages("");
    }
  }

  /** The mutable run the route's closures share. */
  class ConvertPipeline {
    var ytError: string
    var ffmpegError: string
    var ytKilled: bool
    var ffmpegKilled: bool
    var headersSent: bool
    var streaming: bool
    var timerArmed: bool
    var signals: seq<Proc>
    var replies: seq<Reply>
    const timeoutMs: int

    function State(): Run
      reads this
    {
      Run(ytError, ffmpegError, ytKilled, ffmpegKilled, headersSent, streaming, timerArmed, signals, replies)
    }

    constructor (configuredTimeout: Option<int>)
      ensures State() == Initial() && Inv(State())
      ensures timeoutMs == TimeoutWindow(configuredTimeout)
    {
      ytError, ffmpegError := "", "";
      ytKilled, ffmpegKilled := false, false;
      headersSent, streaming, timerArmed := false, false, true;
      signals, replies := [], [];
      timeoutMs := TimeoutWindow(configuredTimeout);
    }

    method KillAll()
      modifies this
      ensures State() == AfterKillAll(old(State()))
    {
      if !ytKilled {
        ytKilled := true;
        signals := signals + [Yt];
      }
      if !ffmpegKilled {
        ffmpegKilled := true;
        signals := signals + [Ffmpeg];
      }
    }

    method Finish()
      modifies this
      ensures State() == AfterFinish(old(State()))
    {
      timerArmed := false;
      KillAll();
    }

    method Respond(reply: Reply)
      modifies this
      ensures State() == AfterRespond(old(State()), reply)
    {
      replies := replies + [reply];
      headersSent := true;
    }

    method OnYtStderr(chunk: string)
      requires Inv(State())
      modifies this
      ensures State() == Step(old(State()), YtStderr(chunk)) && Inv(State())
    {
      StepInv(State(), YtStderr(chunk));
      ytError := ytError + chunk;
    }

    method OnFfmpegStderr(chunk: string)
      requires Inv(State())
      modifies this
      ensures State() == Step(old(State()), FfmpegStderr(chunk)) && Inv(State())
    {
      StepInv(State(), FfmpegStderr(chunk));
      ffmpegError := ffmpegError + chunk;
    }

    /** The pipe from ffmpeg's output commits the headers: at its first byte,
        or by ending the response when the output ends. */
    method OnOutput()
      requires Inv(State())
      modifies this
      ensures State() == Step(old(State()), OutputStarted) && Inv(State())
    {
      StepInv(State(), OutputStarted);
      if !headersSent {
        headersSent := true;
        streaming := true;
      }
    }

    method OnYtExit(code: ExitCode)
      requires Inv(State())
      modifies this
      ensures State() == Step(old(State()), YtExit(code)) && Inv(State())
    {
      StepInv(State(), YtExit(code));
      if Failed(code) && !headersSent {
        KillAll();
        var c := Convert.ClassifyYtdlpError(ytError);
        Respond(Reply(c.status, OrElse(Trim(ytError), "yt-dlp failed"), Some(c.code)));
      }
    }

    method OnFfmpegExit(code: ExitCode)
      requires Inv(State())
      modifies this
      ensures State() == Step(old(State()), FfmpegExit(code)) && Inv(State())
    {
      StepInv(State(), FfmpegExit(code));
      if Failed(code) && !headersSent {
        KillAll();
        Respond(Reply(500, OrElse(Trim(ffmpegError), "ffmpeg failed"), None));
      }
    }

    /** The timer callback; it cannot run once `finish` has cleared it. */
    method OnTimeout()
      requires Inv(State())
      modifies this
      ensures State() == Step(old(State()), TimerFired) && Inv(State())
    {
      StepInv(State(), TimerFired);
      if timerArmed {
        timerArmed := false;
        if !headersSent {
          KillAll();
          Respond(Reply(504, "Conversion timed out", Some("CONVERT_TIMEOUT")));
        }
      }
    }

    method OnRequestClose()
      requires Inv(State())
      modifies this
      ensures State() == Step(old(State()), RequestClosed) && Inv(State())
    {
      StepInv(State(), RequestClosed);
      KillAll();
    }

    method OnFfmpegClose()
      requires Inv(State())
      modifies this
      ensures State() == Step(old(State()), FfmpegClosed) && Inv(State())
    {
      StepInv(State(), FfmpegClosed);
      Finish();
    }

    method OnResponseClose()
      requires Inv(State())
      modifies this
      ensures State() == Step(old(State()), ResponseClosed) && Inv(State())
    {
      StepInv(State(), ResponseClosed);
      Finish();
    }
  }
}
