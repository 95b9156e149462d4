/** `getVideoInfo` in src/utils/ytdlp.js: one yt-dlp run in JSON-dump mode
    whose stdout and stderr are collected, wrapped in a promise settled by
    the process's `close` and `error` events. `Probe` is the state the
    promise's closures share; `ProbeStep` is the meaning of one event; the
    class `InfoProcess` carries out the same handlers on mutable fields.
    JSON parsing is the parameter `parse`. */
module Ytdlp {
  import opened Common
  import opened Text

  const InfoFormat := "bestvideo[ext=mp4]+bestaudio[ext=m4a]/best[ext=mp4]"

  /** `args`: the four JSON-dump flags and `--format InfoFormat`, then
      `--proxy p` when `options.proxy` is set, then the url. */
  method BuildInfoArgs(url: string, proxy: Option<string>) returns (args: seq<string>)
    ensures |args| == if Present(proxy) then 9 else 7
    ensures args[..5] == ["--dump-json", "--skip-download", "--no-warnings", "--no-call-home", "--format"]
    ensures args[5] == InfoFormat
    ensures Present(proxy) ==> args[6..8] == ["--proxy", proxy.value]
    ensures args[|args| - 1] == url
  {
    args := ["--dump-json", "--skip-download", "--no-warnings", "--no-call-home", "--format", InfoFormat];
    if Present(proxy) {
      args := args + ["--proxy", proxy.value];
    }
    args := args + [url];
  }

  /** What `JSON.parse` does with a text: a value, or a SyntaxError message. */
  datatype ParseOutcome<J> = Parsed(value: J) | Malformed(message: string)

  /** The Error a rejection carries: its message and its `code`, if any. */
  datatype Failure = Failure(message: string, errno: Option<string>)

  /** The promise: pending until the first `resolve` or `reject`. */
  datatype Settled<J> = Pending | Resolved(value: J) | Rejected(failure: Failure)

  /** What the `close` handler settles the promise with. */
  function CloseOutcome<J>(code: ExitCode, stdout: string, stderr: string, parse: string -> ParseOutcome<J>): (r: Settled<J>)
    ensures !r.Pending?
    ensures Failed(code) ==> r.Rejected? && r.failure.errno.None? && r.failure.message != []
    ensures Failed(code) && !AllSpace(stderr) ==> r.failure.message == Trim(stderr)
    ensures Failed(code) && AllSpace(stderr) ==> r.failure.message == "yt-dlp process exited with code " + ExitCodeText(code)
    ensures !Failed(code) ==> (r.Resolved? <==> parse(stdout).Parsed?)
    ensures !Failed(code) && parse(stdout).Parsed? ==> r.value == parse(stdout).value
    ensures !Failed(code) && parse(stdout).Malformed? ==>
      r == Rejected(Failure("Failed to parse yt-dlp output: " + parse(stdout).message, None))
  {
    TrimEmptyOnlyForSpace(stderr);
    if Failed(code) then
      Rejected(Failure(OrElse(Trim(stderr), "yt-dlp process exited with code " + ExitCodeText(code)), None))
    else
      match parse(stdout)
      case Parsed(v) => Resolved(v)
      case Malformed(m) => Rejected(Failure("Failed to parse yt-dlp output: " + m, None))
  }

  /** What the `error` handler rejects with: a fixed message for a missing
      binary, otherwise the error itself. */
  function ErrorOutcome(err: SpawnError): (f: Failure)
    ensures err.errno == Some("ENOENT") ==> f == Failure(NotFoundMessage, None)
    ensures err.errno != Some("ENOENT") ==> f.message == err.message && f.errno == err.errno
  {
    if err.errno == Some("ENOENT") then Failure(NotFoundMessage, None) else Failure(err.message, err.errno)
  }

  /** A promise settles once: later calls of `resolve`/`reject` are ignored. */
  function Settle<J>(s: Settled<J>, next: Settled<J>): (r: Settled<J>)
    ensures !s.Pending? ==> r == s
    ensures s.Pending? ==> r == next
    ensures r.Pending? ==> s.Pending?  && next.Pending?
  {
    if s.Pending? then next else s
  }

  datatype Probe<J> = Probe(stdout: string, stderr: string, settled: Settled<J>)

  datatype ProbeEvent = Stdout(chunk: string) | Stderr(chunk: string) | Closed(code: ExitCode) | ProcessError(err: SpawnError)

  function Spawned<J>(): Probe<J>
  {
    Probe("", "", Pending)
  }

  /** One event: a chunk grows its own buffer only; `close` and `error`
      settle a pending promise and leave a settled one as it is. */
  function ProbeStep<J>(p: Probe<J>, e: ProbeEvent, parse: string -> ParseOutcome<J>): (q: Probe<J>)
    ensures !p.settled.Pending? ==> q.settled == p.settled
    ensures (e.Closed? || e.ProcessError?) ==> !q.settled.Pending?
    ensures (e.Stdout? || e.Stderr?) ==> q.settled == p.settled
    ensures q.stdout == p.stdout + (if e.Stdout? then e.chunk else "")
    ensures q.stderr == p.stderr + (if e.Stderr? then e.chunk else "")
  {
    match e
    case Stdout(chunk) => p.(stdout := p.stdout + chunk)
    case Stderr(chunk) => p.(stderr := p.stderr + chunk)
    case Closed(code) => p.(settled := Settle(p.settled, CloseOutcome(code, p.stdout, p.stderr, parse)))
    case ProcessError(err) => p.(settled := Settle(p.settled, Rejected(ErrorOutcome(err))))
  }

  function ProbeAll<J>(p: Probe<J>, es: seq<ProbeEvent>, parse: string -> ParseOutcome<J>): Probe<J>
    decreases |es|
  {
    if es == [] then p else ProbeAll(ProbeStep(p, es[0], parse), es[1..], parse)
  }

  /** The chunks of one stream joined in arrival order. */
  function StdoutText(es: seq<ProbeEvent>): string
    decreases |es|
  {
    if es == [] then "" else (if es[0].Stdout? then es[0].chunk else "") + StdoutText(es[1..])
  }

  function StderrText(es: seq<ProbeEvent>): string
    decreases |es|
  {
    if es == [] then "" else (if es[0].Stderr? then es[0].chunk else "") + StderrText(es[1..])
  }

  /** Once settled, the promise keeps its value whatever follows. */
  lemma {:induction false} SettledIsFinal<J>(p: Probe<J>, es: seq<ProbeEvent>, parse: string -> ParseOutcome<J>)
    requires !p.settled.Pending?
    ensures ProbeAll(p, es, parse).settled == p.settled
    decreases |es|
  {
    if es != [] {
      SettledIsFinal(ProbeStep(p, es[0], parse), es[1..], parse);
    }
  }

  /** The promise settles at the first `close` or `error`, and only then. */
  lemma {:induction false} PendingUntilTerminal<J>(p: Probe<J>, es: seq<ProbeEvent>, parse: string -> ParseOutcome<J>)
    requires p.settled.Pending?
    requires forall i :: 0 <= i < |es| ==> es[i].Stdout? || es[i].Stderr?
    ensures ProbeAll(p, es, parse).settled.Pending?
    decreases |es|
  {
    if es != [] {
      PendingUntilTerminal(ProbeStep(p, es[0], parse), es[1..], parse);
    }
  }

  lemma StepAppends<J>(p: Probe<J>, e: ProbeEvent, parse: string -> ParseOutcome<J>)
    ensures ProbeStep(p, e, parse).stdout == p.stdout + (if e.Stdout? then e.chunk else "")
    ensures ProbeStep(p, e, parse).stderr == p.stderr + (if e.Stderr? then e.chunk else "")
  {
    match e
    case Stdout(_) =>
    case Stderr(_) =>
    case _ =>
      assert ProbeStep(p, e, parse).stdout == p.stdout && ProbeStep(p, e, parse).stderr == p.stderr;
  }

  /** `stdout` is the stdout chunks joined in arrival order. */
  lemma {:induction false} StdoutAccumulates<J>(p: Probe<J>, es: seq<ProbeEvent>, parse: string -> ParseOutcome<J>)
    ensures ProbeAll(p, es, parse).stdout == p.stdout + StdoutText(es)
    decreases |es|
  {
    if es != [] {
      var a := if es[0].Stdout? then es[0].chunk else "";
      StepAppends(p, es[0], parse);
      StdoutAccumulates(ProbeStep(p, es[0], parse), es[1..], parse);
      assert (p.stdout + a) + StdoutText(es[1..]) == p.stdout + (a + StdoutText(es[1..]));
    }
  }

  /** `stderr` is the stderr chunks joined in arrival order. */
  lemma {:induction false} StderrAccumulates<J>(p: Probe<J>, es: seq<ProbeEvent>, parse: string -> ParseOutcome<J>)
    ensures ProbeAll(p, es, parse).stderr == p.stderr + StderrText(es)
    decreases |es|
  {
    if es != [] {
      var b := if es[0].Stderr? then es[0].chunk else "";
      StepAppends(p, es[0], parse);
      StderrAccumulates(ProbeStep(p, es[0], parse), es[1..], parse);
      assert (p.stderr + b) + StderrText(es[1..]) == p.stderr + (b + StderrText(es[1..]));
    }
  }

  /** A run that writes its output and diagnostics, then closes: the promise
      settles with `CloseOutcome` of everything written. */
  lemma ClosedRun<J>(es: seq<ProbeEvent>, code: ExitCode, parse: string -> ParseOutcome<J>)
    requires forall i :: 0 <= i < |es| ==> es[i].Stdout? || es[i].Stderr?
    ensures ProbeAll(Spawned(), es + [Closed(code)], parse).settled ==
      CloseOutcome(code, StdoutText(es), StderrText(es), parse)
  {
    var s0: Probe<J> := Spawned();
    var p := ProbeAll(s0, es, parse);
    PendingUntilTerminal(s0, es, parse);
    StdoutAccumulates(s0, es, parse);
    StderrAccumulates(s0, es, parse);
    assert p.stdout == StdoutText(es) && p.stderr == StderrText(es);
    ProbeAllAppend(s0, es, [Closed(code)], parse);
    CloseLast(p, code, parse);
  }

  lemma CloseLast<J>(p: Probe<J>, code: ExitCode, parse: string -> ParseOutcome<J>)
    requires p.settled.Pending?
    ensures ProbeAll(p, [Closed(code)], parse).settled == CloseOutcome(code, p.stdout, p.stderr, parse)
  {
    assert [Closed(code)][1..] == [];
  }

  lemma {:induction false} ProbeAllAppend<J>(p: Probe<J>, es: seq<ProbeEvent>, fs: seq<ProbeEvent>, parse: string -> ParseOutcome<J>)
    ensures ProbeAll(p, es + fs, parse) == ProbeAll(ProbeAll(p, es, parse), fs, parse)
    decreases |es|
  {
    if es == [] {
      assert es + fs == fs;
    } else {
      assert (es + fs)[0] == es[0];
      assert (es + fs)[1..] == es[1..] + fs;
      ProbeAllAppend(ProbeStep(p, es[0], parse), es[1..], fs, parse);
    }
  }

  /** A missing binary: `error` (ENOENT) rejects with the fixed message, and
      the `close` (code -2) that follows cannot change it. */
  lemma MissingBinary<J>(message: string, code: ExitCode, parse: string -> ParseOutcome<J>)
    ensures ProbeAll(Spawned(), [ProcessError(SpawnError(Some("ENOENT"), message)), Closed(code)], parse).settled ==
      Rejected(Failure(NotFoundMessage, None))
  {
    var es := [ProcessError(SpawnError(Some("ENOENT"), message)), Closed(code)];
    var p1 := ProbeStep(Spawned<J>(), es[0], parse);
    assert p1.settled == Rejected(Failure(NotFoundMessage, None));
    SettledIsFinal(p1, es[1..], parse);
  }

  /** The promise's closures sharing `stdout`, `stderr` and the promise. */
  class InfoProcess<J> {
    var stdout: string
    var stderr: string
    var settled: Settled<J>
    const parse: string -> ParseOutcome<J>

    function State(): Probe<J>
      reads this
    {
      Probe(stdout, stderr, settled)
    }

    constructor (parse: string -> ParseOutcome<J>)
      ensures State() == Spawned() && this.parse == parse
    {
      stdout, stderr, settled := "", "", Pending;
      this.parse := parse;
    }

    method OnStdout(chunk: string)
      modifies this
      ensures State() == ProbeStep(old(State()), Stdout(chunk), parse)
    {
      stdout := stdout + chunk;
    }

    method OnStderr(chunk: string)
      modifies this
      ensures State() == ProbeStep(old(State()), Stderr(chunk), parse)
    {
      stderr := stderr + chunk;
    }

    method OnClose(code: ExitCode)
      modifies this
      ensures State() == ProbeStep(old(State()), Closed(code), parse)
    {
      var outcome: Settled<J>;
      if Failed(code) {
        var errorMsg := OrElse(Trim(stderr), "yt-dlp process exited with code " + ExitCodeText(code));
        outcome := Rejected(Failure(errorMsg, None));
      } else {
        match parse(stdout)
        case Parsed(v) => outcome := Resolved(v);
        case Malformed(m) => outcome := Rejected(Failure("Failed to parse yt-dlp output: " + m, None));
      }
      if settled.Pending? {
        settled := outcome;
      }
    }

    method OnError(err: SpawnError)
      modifies this
      ensures State() == ProbeStep(old(State()), ProcessError(err), parse)
    {
      if settled.Pending? {
        if err.errno == Some("ENOENT") {
          settled := Rejected(Failure(NotFoundMessage, None));
        } else {
          settled := Rejected(Failure(err.message, err.errno));
        }
      }
    }
  }
}
