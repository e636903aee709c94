/**
 * The middle engine, `tee_subprocess/__init__.py`: sinks are popped from the keyword
 * arguments only when teeing and coerced without a type check, string commands go
 * through `shlex`, `check` raises, and `run` hands back the coroutine when an event
 * loop is already running.
 */
module TeeSubprocessLegacy {
  import opened Wrappers
  import opened Streams
  import opened Processes
  import SubprocessTee

  /** The keyword arguments `run` forwards to `_target`; `stdout`/`stderr` are the keys of
      `**kwargs`, None when not passed. */
  datatype Options = Options(
    tee: bool, shell: bool, captureOutput: bool, text: bool, check: bool,
    stdout: Option<StdioArg>, stderr: Option<StdioArg>)

  /** `_target`'s defaults: tee on, exec mode, no capture, binary, no check, standard sinks. */
  const Defaults := Options(true, false, false, false, false, None, None)

  /** A not-yet-started `_target` coroutine. */
  datatype Call = Call(cmd: StrCommand, options: Options)

  /** Every writable a call may forward to. */
  function Sinks(o: Options, std: StdStreams): set<Sink>
  {
    std.Objects() + PassedSinks(o.stdout) + PassedSinks(o.stderr)
  }

  /**
   * The sink set-up of `_target`: without tee both sinks are absent; with tee each is
   * popped from the keyword arguments with the mode's standard stream as default and
   * coerced by the unchecked `_coerce_stdio`, so an explicit None forwards nothing.
   */
  function ResolveSinks(o: Options, std: StdStreams): (r: (Sink?, Sink?))
    ensures !o.tee ==> r == (null, null)
    ensures o.tee && o.stdout.None? ==> r.0 == std.Out(o.text)
    ensures o.tee && o.stderr.None? ==> r.1 == std.Err(o.text)
    ensures o.tee && o.stdout.Some? ==> r.0 == SubprocessTee.CoerceStdio(o.stdout.value, o.text, std)
    ensures o.tee && o.stderr.Some? ==> r.1 == SubprocessTee.CoerceStdio(o.stderr.value, o.text, std)
    ensures (r.0 != null ==> r.0 in Sinks(o, std)) && (r.1 != null ==> r.1 in Sinks(o, std))
  {
    if !o.tee then (null, null)
    else
      var stdout := std.Out(o.text);
      var stderr := std.Err(o.text);
      (SubprocessTee.CoerceStdio(PopOr(o.stdout, stdout), o.text, std),
       SubprocessTee.CoerceStdio(PopOr(o.stderr, stderr), o.text, std))
  }

  /** Without tee nothing pops `stdout`/`stderr` from the keyword arguments, so a passed
      one reaches the launcher beside its own `stdout=PIPE, stderr=PIPE`. */
  predicate KeywordLeftOver(o: Options)
  {
    !o.tee && (o.stdout.Some? || o.stderr.Some?)
  }

  /** The exec-mode tuple: a string split by `shlex`, a list/tuple as is. */
  function ExecTokens(cmd: StrCommand, os: Platform): (argv: seq<string>)
    ensures cmd.CmdString? ==> argv == os.shlexSplit(cmd.s, os.posix)
    ensures cmd.CmdList? ==> argv == cmd.tokens
  {
    match cmd
    case CmdString(s) => os.shlexSplit(s, os.posix)
    case CmdList(ts) => ts
  }

  /**
   * Command shaping: in exec mode the program is the first token and the rest are its
   * arguments (IndexError when there is none); in shell mode a list/tuple is `shlex.join`ed
   * and a string passes through.
   */
  function ShapeCommand(cmd: StrCommand, shell: bool, os: Platform): (r: Result<StrLaunch, Error<StrCommand>>)
    ensures !shell ==> (r.Err? <==> ExecTokens(cmd, os) == [])
    ensures r.Err? ==> r.error == EmptyCommandError
    ensures !shell && r.Ok? ==> r.value.ExecArgv? && r.value.Argv() == ExecTokens(cmd, os)
    ensures shell ==> r.Ok? && r.value.ShellLine?
    ensures shell && cmd.CmdString? ==> r.value.line == cmd.s
    ensures shell && cmd.CmdList? ==> r.value.line == os.shlexJoin(cmd.tokens)
  {
    if !shell then
      var argv := ExecTokens(cmd, os);
      if argv == [] then Err(EmptyCommandError) else Ok(ExecArgv(argv[0], argv[1..]))
    else
      match cmd
      case CmdList(ts) => Ok(ShellLine(os.shlexJoin(ts)))
      case CmdString(s) => Ok(ShellLine(s))
  }

  /** The call reaches the point where the child runs. */
  predicate Launches(cmd: StrCommand, o: Options, os: Platform)
  {
    ShapeCommand(cmd, o.shell, os).Ok? && !KeywordLeftOver(o)
  }

  /**
   * What `_target` raises or returns for a child whose pipes deliver `out` and `err` and
   * that exits with `retcode`: command errors first, then the launcher's duplicate-keyword
   * TypeError, then the assembled result.
   */
  function Outcome(cmd: StrCommand, o: Options, os: Platform,
                   out: seq<Bytes>, err: seq<Bytes>, retcode: int): (r: Result<Completed<StrCommand>, Error<StrCommand>>)
    ensures ShapeCommand(cmd, o.shell, os).Err? ==> r == Err(ShapeCommand(cmd, o.shell, os).error)
    ensures ShapeCommand(cmd, o.shell, os).Ok? && KeywordLeftOver(o) ==> r == Err(KeywordClashError)
    ensures Launches(cmd, o, os) ==>
      r == Assemble(cmd, retcode, Captured(out, o.captureOutput), Captured(err, o.captureOutput), o.text, o.check, os.decode)
  {
    match ShapeCommand(cmd, o.shell, os)
    case Err(e) => Err(e)
    case Ok(_) =>
      if KeywordLeftOver(o) then Err(KeywordClashError)
      else Assemble(cmd, retcode, Captured(out, o.captureOutput), Captured(err, o.captureOutput), o.text, o.check, os.decode)
  }

  /** Turning tee off changes no result when no sink argument is passed: capture does not
      depend on forwarding. */
  lemma CaptureIndependentOfTee(cmd: StrCommand, o: Options, os: Platform, out: seq<Bytes>, err: seq<Bytes>, retcode: int)
    requires o.stdout.None? && o.stderr.None?
    ensures Outcome(cmd, o.(tee := false), os, out, err, retcode) == Outcome(cmd, o.(tee := true), os, out, err, retcode)
  {
  }

  /** Without tee, passing `stdout` or `stderr` makes every launchable command fail with the
      duplicate-keyword TypeError before any process starts. */
  lemma SinkArgumentWithoutTeeRaises(cmd: StrCommand, o: Options, os: Platform, out: seq<Bytes>, err: seq<Bytes>, retcode: int)
    requires !o.tee && (o.stdout.Some? || o.stderr.Some?)
    requires ShapeCommand(cmd, o.shell, os).Ok?
    ensures Outcome(cmd, o, os, out, err, retcode) == Err(KeywordClashError)
    ensures !Launches(cmd, o, os)
  {
  }

  /**
   * `_target`: resolve the sinks, shape the command, tee both pipes of the child (decoding
   * iff text mode) and assemble the result. When the call cannot launch, nothing is read
   * and nothing is written.
   */
  method Target(cmd: StrCommand, o: Options, std: StdStreams, os: Platform, child: Child)
    returns (r: Result<Completed<StrCommand>, Error<StrCommand>>)
    requires child.stdout != child.stderr
    modifies child.stdout, child.stderr, Sinks(o, std)
    ensures r == Outcome(cmd, o, os, old(child.stdout.pending), old(child.stderr.pending), child.returncode)
    ensures !Launches(cmd, o, os) ==>
      child.stdout.pending == old(child.stdout.pending) && child.stderr.pending == old(child.stderr.pending) &&
      forall s :: s in Sinks(o, std) ==> s.written == old(s.written)
    ensures Launches(cmd, o, os) ==>
      child.stdout.pending == [] && child.stderr.pending == [] &&
      forall s :: s in Sinks(o, std) ==>
        s.written == old(s.written) + TeedTo(s, ResolveSinks(o, std), old(child.stdout.pending), old(child.stderr.pending),
                                             o.text, o.text, os.decode)
  {
    var (outSink, errSink) := ResolveSinks(o, std);
    var launch := ShapeCommand(cmd, o.shell, os);
    if launch.Err? {
      return Err(launch.error);
    }
    if KeywordLeftOver(o) {
      return Err(KeywordClashError);
    }
    var out, err := Gather(child, o.text, o.captureOutput, outSink, errSink, os.decode, Sinks(o, std));
    r := Assemble(cmd, child.returncode, out, err, o.text, o.check, os.decode);
  }

  /** `run`: with an event loop running, the coroutine is returned unstarted;
      otherwise it is run to completion. */
  method Run(cmd: StrCommand, o: Options, loopRunning: bool, std: StdStreams, os: Platform, child: Child)
    returns (r: Dispatched<Call, StrCommand>)
    requires child.stdout != child.stderr
    modifies child.stdout, child.stderr, Sinks(o, std)
    ensures loopRunning ==>
      r == Deferred(Call(cmd, o)) &&
      child.stdout.pending == old(child.stdout.pending) && child.stderr.pending == old(child.stderr.pending) &&
      forall s :: s in Sinks(o, std) ==> s.written == old(s.written)
    ensures !loopRunning ==>
      r == Finished(Outcome(cmd, o, os, old(child.stdout.pending), old(child.stderr.pending), child.returncode))
    ensures !loopRunning && !Launches(cmd, o, os) ==>
      child.stdout.pending == old(child.stdout.pending) && child.stderr.pending == old(child.stderr.pending) &&
      forall s :: s in Sinks(o, std) ==> s.written == old(s.written)
    ensures !loopRunning && Launches(cmd, o, os) ==>
      child.stdout.pending == [] && child.stderr.pending == [] &&
      forall s :: s in Sinks(o, std) ==>
        s.written == old(s.written) + TeedTo(s, ResolveSinks(o, std), old(child.stdout.pending), old(child.stderr.pending),
                                             o.text, o.text, os.decode)
  {
    if loopRunning {
      return Deferred(Call(cmd, o));
    }
    var outcome := Target(cmd, o, std, os, child);
    return Finished(outcome);
  }
}
