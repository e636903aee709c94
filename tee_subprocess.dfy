/**
 * The current engine, `tee_subprocess/subprocess.py`: sinks are resolved with a
 * text/binary type check, `None` means the standard stream, commands may hold
 * str, bytes or path-like elements, and `run` hands back the coroutine when an
 * event loop is already running.
 */
module TeeSubprocess {
  import opened Wrappers
  import opened Streams
  import opened Processes

  /** One command element: a str, a bytes, or an `os.PathLike`. */
  datatype Arg = StrArg(s: string) | BytesArg(b: Bytes) | PathArg(p: string)

  /** A command: one element, or a list/tuple of them (the two are treated alike). */
  datatype Command = Single(arg: Arg) | Sequence(items: seq<Arg>)

  /** What is handed to `create_subprocess_exec` or `create_subprocess_shell`. */
  datatype Launch = Exec(program: Arg, args: seq<Arg>) | Shell(line: Arg)

  /** The keyword arguments of `_target` (the pass-through launch options are not modelled). */
  datatype Options = Options(
    shell: bool, tee: bool, captureOutput: bool,
    stdout: StdioArg, stderr: StdioArg, text: bool, check: bool)

  /** `_target`'s defaults: exec mode, tee on, no capture, standard sinks, binary, no check. */
  const Defaults := Options(false, true, false, NoneArg, NoneArg, false, false)

  /** A not-yet-started `_target` coroutine. */
  datatype Call = Call(cmd: Command, options: Options)

  /** A writable whose kind does not fit the mode. */
  predicate Mismatched(a: StdioArg, text: bool)
  {
    a.SinkArg? && a.sink.kind != KindFor(text)
  }

  /** Every writable a call may forward to. */
  function Sinks(o: Options, std: StdStreams): set<Sink>
  {
    std.Objects() + ArgSinks(o.stdout) + ArgSinks(o.stderr)
  }

  /**
   * `_coerce_stdio`: STDOUT and PIPE become standard output of the mode's kind
   * (also when resolving stderr), any other int discards, None gives the default,
   * and a writable is returned unchanged if its kind fits the mode.
   */
  function CoerceStdio(stdio: StdioArg, default: Sink, text: bool, std: StdStreams): (r: Result<Sink?, Error<Command>>)
    ensures r.Err? <==> Mismatched(stdio, text)
    ensures r.Err? ==> r.error == SinkTypeError(text)
    ensures stdio.IntArg? ==> r == Ok(if RoutesToStdout(stdio.n) then std.Out(text) else null)
    ensures stdio.NoneArg? ==> r == Ok(default)
    ensures stdio.SinkArg? && r.Ok? ==> r.value == stdio.sink
    ensures r.Ok? && r.value != null && std.Valid() && default.kind == KindFor(text) ==> r.value.kind == KindFor(text)
  {
    match stdio
    case IntArg(n) =>
      if n in {STDOUT, PIPE} then Ok(std.Out(text)) else Ok(null)
    case NoneArg => Ok(default)
    case SinkArg(s) =>
      if text && s.kind != TextIo then Err(SinkTypeError(true))
      else if !text && s.kind == TextIo then Err(SinkTypeError(false))
      else Ok(s)
  }

  /** The sink set-up of `_target`: both sinks absent without tee, otherwise each stream's
      descriptor coerced against that stream's standard stream, stdout first. */
  function ResolveSinks(o: Options, std: StdStreams): (r: Result<(Sink?, Sink?), Error<Command>>)
    ensures !o.tee ==> r == Ok((null, null))
    ensures r.Err? <==> o.tee && (Mismatched(o.stdout, o.text) || Mismatched(o.stderr, o.text))
    ensures r.Err? ==> r.error == SinkTypeError(o.text)
    ensures o.tee && r.Ok? ==>
      r.value == (CoerceStdio(o.stdout, std.Out(o.text), o.text, std).value, CoerceStdio(o.stderr, std.Err(o.text), o.text, std).value)
    ensures r.Ok? ==> (r.value.0 != null ==> r.value.0 in Sinks(o, std)) && (r.value.1 != null ==> r.value.1 in Sinks(o, std))
    ensures r.Ok? && std.Valid() ==>
      (r.value.0 != null ==> r.value.0.kind == KindFor(o.text)) && (r.value.1 != null ==> r.value.1.kind == KindFor(o.text))
  {
    if !o.tee then Ok((null, null))
    else
      match CoerceStdio(o.stdout, std.Out(o.text), o.text, std)
      case Err(e) => Err(e)
      case Ok(outSink) =>
        match CoerceStdio(o.stderr, std.Err(o.text), o.text, std)
        case Err(e) => Err(e)
        case Ok(errSink) => Ok((outSink, errSink))
  }

  /** `os.fsdecode`: str and path-like pass through, bytes are decoded. */
  function FsDecode(a: Arg, os: Platform): string
  {
    match a
    case StrArg(s) => s
    case BytesArg(b) => os.fsdecode(b)
    case PathArg(p) => p
  }

  /** Some element of the command is path-like. */
  predicate HasPathLike(cmd: Command)
  {
    match cmd
    case Single(a) => a.PathArg?
    case Sequence(items) => exists i :: 0 <= i < |items| && items[i].PathArg?
  }

  /** The exec-mode tuple: a bare str/bytes split by `shlex`, a path-like alone, a list/tuple as is. */
  function ExecTokens(cmd: Command, os: Platform): (argv: seq<Arg>)
    ensures cmd.Sequence? ==> argv == cmd.items
    ensures cmd.Single? && cmd.arg.PathArg? ==> argv == [cmd.arg]
    ensures cmd.Single? && !cmd.arg.PathArg? ==>
      |argv| == |os.shlexSplit(FsDecode(cmd.arg, os), os.posix)| &&
      forall i :: 0 <= i < |argv| ==> argv[i] == StrArg(os.shlexSplit(FsDecode(cmd.arg, os), os.posix)[i])
  {
    match cmd
    case Single(PathArg(p)) => [PathArg(p)]
    case Single(a) =>
      var tokens := os.shlexSplit(FsDecode(a, os), os.posix);
      seq(|tokens|, i requires 0 <= i < |tokens| => StrArg(tokens[i]))
    case Sequence(items) => items
  }

  /**
   * Command shaping: in exec mode the program is the first element of the exec tuple
   * and the rest are its arguments (IndexError when there is none); in shell mode a
   * path-like anywhere is a TypeError, a list/tuple is `shlex.join`ed and a bare
   * str/bytes passes through.
   */
  function ShapeCommand(cmd: Command, shell: bool, os: Platform): (r: Result<Launch, Error<Command>>)
    ensures !shell ==> (r.Err? <==> ExecTokens(cmd, os) == [])
    ensures !shell && r.Err? ==> r.error == EmptyCommandError
    ensures !shell && r.Ok? ==> r.value.Exec? && [r.value.program] + r.value.args == ExecTokens(cmd, os)
    ensures shell ==> (r.Err? <==> HasPathLike(cmd))
    ensures shell && r.Err? ==> r.error == PathInShellError
    ensures shell && r.Ok? ==> r.value.Shell? && !r.value.line.PathArg?
    ensures shell && cmd.Single? && r.Ok? ==> r.value.line == cmd.arg
    ensures shell && cmd.Sequence? && r.Ok? ==>
      r.value.line == StrArg(os.shlexJoin(seq(|cmd.items|, i requires 0 <= i < |cmd.items| => FsDecode(cmd.items[i], os))))
  {
    if !shell then
      var argv := ExecTokens(cmd, os);
      if argv == [] then Err(EmptyCommandError) else Ok(Exec(argv[0], argv[1..]))
    else if HasPathLike(cmd) then
      Err(PathInShellError)
    else
      match cmd
      case Sequence(items) =>
        Ok(Shell(StrArg(os.shlexJoin(seq(|items|, i requires 0 <= i < |items| => FsDecode(items[i], os))))))
      case Single(a) => Ok(Shell(a))
  }

  /** The checks `_target` makes before it starts a process all pass. */
  predicate Launches(cmd: Command, o: Options, std: StdStreams, os: Platform)
  {
    ResolveSinks(o, std).Ok? && ShapeCommand(cmd, o.shell, os).Ok?
  }

  /**
   * What `_target` raises or returns for a child whose pipes deliver `out` and `err`
   * and that exits with `retcode`: sink errors first, then command errors, then the
   * assembled result.
   */
  function Outcome(cmd: Command, o: Options, std: StdStreams, os: Platform,
                   out: seq<Bytes>, err: seq<Bytes>, retcode: int): (r: Result<Completed<Command>, Error<Command>>)
    ensures ResolveSinks(o, std).Err? ==> r == Err(ResolveSinks(o, std).error)
    ensures ResolveSinks(o, std).Ok? && ShapeCommand(cmd, o.shell, os).Err? ==> r == Err(ShapeCommand(cmd, o.shell, os).error)
    ensures Launches(cmd, o, std, os) ==>
      r == Assemble(cmd, retcode, Captured(out, o.captureOutput), Captured(err, o.captureOutput), o.text, o.check, os.decode)
  {
    match ResolveSinks(o, std)
    case Err(e) => Err(e)
    case Ok(_) =>
      match ShapeCommand(cmd, o.shell, os)
      case Err(e) => Err(e)
      case Ok(_) =>
        Assemble(cmd, retcode, Captured(out, o.captureOutput), Captured(err, o.captureOutput), o.text, o.check, os.decode)
  }

  /** With tee off no sink is resolved and none is checked; whenever the same call with tee
      on passes its sink checks, both calls raise or return the same: capture does not
      depend on forwarding. */
  lemma CaptureIndependentOfTee(cmd: Command, o: Options, std: StdStreams, os: Platform,
                                out: seq<Bytes>, err: seq<Bytes>, retcode: int)
    ensures ResolveSinks(o.(tee := false), std) == Ok((null, null))
    ensures ResolveSinks(o.(tee := true), std).Ok? ==>
      Outcome(cmd, o.(tee := false), std, os, out, err, retcode) == Outcome(cmd, o.(tee := true), std, os, out, err, retcode)
  {
  }

  /** Without `stdout`/`stderr` arguments the sinks are the standard streams of the mode. */
  lemma DefaultSinksAreStandardStreams(std: StdStreams, text: bool)
    ensures ResolveSinks(Defaults.(text := text), std) == Ok((std.Out(text), std.Err(text)))
  {
  }

  /** A writable passed as `stdout=` that fits the mode is the stdout sink itself, whatever
      `stderr=` resolves to. */
  lemma PassedSinkIsUsed(o: Options, std: StdStreams, s: Sink)
    requires o.tee && o.stdout == SinkArg(s) && s.kind == KindFor(o.text) && !Mismatched(o.stderr, o.text)
    ensures ResolveSinks(o, std).Ok? && ResolveSinks(o, std).value.0 == s
  {
  }

  /** `stderr=STDOUT` (or PIPE) sends stderr's lines to standard output, not to standard error. */
  lemma StderrIntoStdout(o: Options, std: StdStreams)
    requires o.tee && o.stderr.IntArg? && RoutesToStdout(o.stderr.n) && !Mismatched(o.stdout, o.text)
    ensures ResolveSinks(o, std).Ok? && ResolveSinks(o, std).value.1 == std.Out(o.text)
  {
  }

  /** In binary mode a sink that only stdout is teed into ends up holding exactly the bytes
      stdout delivered; with capture on they are also the bytes of the result's stdout
      field, and with capture off that field is None. */
  lemma BinaryTeeEqualsCapture(cmd: Command, o: Options, std: StdStreams, os: Platform,
                               out: seq<Bytes>, err: seq<Bytes>, retcode: int)
    requires std.Valid() && !o.text && (!o.check || retcode == 0)
    requires Launches(cmd, o, std, os)
    requires ResolveSinks(o, std).value.0 != null && ResolveSinks(o, std).value.0 != ResolveSinks(o, std).value.1
    ensures var sinks := ResolveSinks(o, std).value;
            var teed := TeedTo(sinks.0, sinks, out, err, IsText(sinks.0), IsText(sinks.1), os.decode);
            BytesWritten(teed) == Concat(out) &&
            Outcome(cmd, o, std, os, out, err, retcode).value.stdout == if o.captureOutput then Some(Bin(BytesWritten(teed))) else None
  {
    var sinks := ResolveSinks(o, std).value;
    assert !IsText(sinks.0);
    assert TeedTo(sinks.0, sinks, out, err, IsText(sinks.0), IsText(sinks.1), os.decode) == Forwarded(out, false, os.decode);
    TeedBytesAreCaptured(out, os.decode);
  }

  /** In text mode each captured field is the binary-mode field decoded, with an empty capture
      read as None, whenever the call passes its checks in both modes. */
  lemma TextCaptureDecodesBinaryCapture(cmd: Command, o: Options, std: StdStreams, os: Platform,
                                        out: seq<Bytes>, err: seq<Bytes>, retcode: int)
    requires !o.check || retcode == 0
    requires Launches(cmd, o.(text := true), std, os) && Launches(cmd, o.(text := false), std, os)
    ensures var t := Outcome(cmd, o.(text := true), std, os, out, err, retcode);
            var b := Outcome(cmd, o.(text := false), std, os, out, err, retcode);
            t.Ok? && b.Ok? && t.value.returncode == b.value.returncode &&
            t.value.stdout == DecodedField(b.value.stdout, os.decode) &&
            t.value.stderr == DecodedField(b.value.stderr, os.decode)
  {
    TextFieldDecodesBinaryField(Captured(out, o.captureOutput), os.decode);
    TextFieldDecodesBinaryField(Captured(err, o.captureOutput), os.decode);
  }

  /** `_tee_stream`: as the shared loop, with "decode" chosen by whether the sink is a text stream. */
  method TeeStream(stream: LineStream, shouldCapture: bool, sink: Sink?, decode: Bytes -> string)
    returns (r: Option<Bytes>)
    modifies stream, sink
    ensures stream.pending == []
    ensures r == Captured(old(stream.pending), shouldCapture)
    ensures sink != null ==> sink.written == old(sink.written) + Forwarded(old(stream.pending), IsText(sink), decode)
  {
    r := Tee(stream, IsText(sink), shouldCapture, sink, decode);
  }

  /** `asyncio.gather` of the two readers, taken one after the other: stdout is drained
      into `outSink`, then stderr into `errSink`. `frame` holds every sink the call may use. */
  method Gather(child: Child, capture: bool, outSink: Sink?, errSink: Sink?, decode: Bytes -> string, ghost frame: set<Sink>)
    returns (out: Option<Bytes>, err: Option<Bytes>)
    requires child.stdout != child.stderr
    requires outSink != null ==> outSink in frame
    requires errSink != null ==> errSink in frame
    modifies child.stdout, child.stderr, frame
    ensures child.stdout.pending == [] && child.stderr.pending == []
    ensures out == Captured(old(child.stdout.pending), capture)
    ensures err == Captured(old(child.stderr.pending), capture)
    ensures forall s :: s in frame ==>
      s.written == old(s.written) + TeedTo(s, (outSink, errSink), old(child.stdout.pending), old(child.stderr.pending),
                                           IsText(outSink), IsText(errSink), decode)
  {
    out := TeeStream(child.stdout, capture, outSink, decode);
    err := TeeStream(child.stderr, capture, errSink, decode);
  }

  /**
   * `_target`: resolve the sinks, shape the command, tee both pipes of the child and
   * assemble the result. When a check fails nothing is read and nothing is written.
   */
  method Target(cmd: Command, o: Options, std: StdStreams, os: Platform, child: Child)
    returns (r: Result<Completed<Command>, Error<Command>>)
    requires child.stdout != child.stderr
    modifies child.stdout, child.stderr, Sinks(o, std)
    ensures r == Outcome(cmd, o, std, os, old(child.stdout.pending), old(child.stderr.pending), child.returncode)
    ensures !Launches(cmd, o, std, os) ==>
      child.stdout.pending == old(child.stdout.pending) && child.stderr.pending == old(child.stderr.pending) &&
      forall s :: s in Sinks(o, std) ==> s.written == old(s.written)
    ensures Launches(cmd, o, std, os) ==>
      child.stdout.pending == [] && child.stderr.pending == [] &&
      forall s :: s in Sinks(o, std) ==>
        s.written == old(s.written) + TeedTo(s, ResolveSinks(o, std).value, old(child.stdout.pending), old(child.stderr.pending),
                                        IsText(ResolveSinks(o, std).value.0), IsText(ResolveSinks(o, std).value.1), os.decode)
  {
    var sinks := ResolveSinks(o, std);
    if sinks.Err? {
      return Err(sinks.error);
    }
    var launch := ShapeCommand(cmd, o.shell, os);
    if launch.Err? {
      return Err(launch.error);
    }
    var (outSink, errSink) := sinks.value;
    var out, err := Gather(child, o.captureOutput, outSink, errSink, os.decode, Sinks(o, std));
    r := Assemble(cmd, child.returncode, out, err, o.text, o.check, os.decode);
  }

  /** `run`: with an event loop running, the coroutine is returned unstarted;
      otherwise it is run to completion. */
  method Run(cmd: Command, o: Options, loopRunning: bool, std: StdStreams, os: Platform, child: Child)
    returns (r: Dispatched<Call, Command>)
    requires child.stdout != child.stderr
    modifies child.stdout, child.stderr, Sinks(o, std)
    ensures loopRunning ==>
      r == Deferred(Call(cmd, o)) &&
      child.stdout.pending == old(child.stdout.pending) && child.stderr.pending == old(child.stderr.pending) &&
      forall s :: s in Sinks(o, std) ==> s.written == old(s.written)
    ensures !loopRunning ==>
      r == Finished(Outcome(cmd, o, std, os, old(child.stdout.pending), old(child.stderr.pending), child.returncode))
    ensures !loopRunning && !Launches(cmd, o, std, os) ==>
      child.stdout.pending == old(child.stdout.pending) && child.stderr.pending == old(child.stderr.pending) &&
      forall s :: s in Sinks(o, std) ==> s.written == old(s.written)
    ensures !loopRunning && Launches(cmd, o, std, os) ==>
      child.stdout.pending == [] && child.stderr.pending == [] &&
      forall s :: s in Sinks(o, std) ==>
        s.written == old(s.written) + TeedTo(s, ResolveSinks(o, std).value, old(child.stdout.pending), old(child.stderr.pending),
                                        IsText(ResolveSinks(o, std).value.0), IsText(ResolveSinks(o, std).value.1), os.decode)
  {
    if loopRunning {
      return Deferred(Call(cmd, o));
    }
    var outcome := Target(cmd, o, std, os, child);
    return Finished(outcome);
  }
}
