/**
 * The Python-side values every generation of the engine shares: the int
 * constants of `subprocess`, what a caller may pass as `stdout=`/`stderr=`,
 * the interpreter's standard streams, the foreign helpers the engine calls,
 * the child process, and the result record with its assembly rule.
 */
module Processes {
  import opened Wrappers
  import opened Streams

  /** `subprocess.PIPE` and `subprocess.STDOUT`; `asyncio.subprocess` re-exports the same
      values. Every other int, `subprocess.DEVNULL` among them, means "discard". */
  const PIPE: int := -1
  const STDOUT: int := -2

  /** The int constants that `_coerce_stdio` turns into standard output. */
  predicate RoutesToStdout(n: int)
  {
    n == STDOUT || n == PIPE
  }

  /** A value passed as `stdout=` or `stderr=`: an int, `None`, or a writable object. */
  datatype StdioArg = IntArg(n: int) | NoneArg | SinkArg(sink: Sink)

  /** The writable objects named by a descriptor. */
  function ArgSinks(a: StdioArg): set<Sink>
  {
    if a.SinkArg? then {a.sink} else {}
  }

  /** The stream kind a mode expects: text mode wants text sinks. */
  function KindFor(text: bool): IoKind
  {
    if text then TextIo else BinaryIo
  }

  /** `sys.stdout`, `sys.stdout.buffer`, `sys.stderr` and `sys.stderr.buffer`, passed in explicitly. */
  datatype StdStreams = StdStreams(stdout: Sink, stdoutBuffer: Sink, stderr: Sink, stderrBuffer: Sink) {
    /** The text streams are text and their buffers are binary. */
    predicate Valid()
    {
      stdout.kind == TextIo && stdoutBuffer.kind == BinaryIo &&
      stderr.kind == TextIo && stderrBuffer.kind == BinaryIo
    }

    /** `sys.stdout if text else sys.stdout.buffer`. */
    function Out(text: bool): (s: Sink)
      ensures Valid() ==> s.kind == KindFor(text)
    {
      if text then stdout else stdoutBuffer
    }

    /** `sys.stderr if text else sys.stderr.buffer`. */
    function Err(text: bool): (s: Sink)
      ensures Valid() ==> s.kind == KindFor(text)
    {
      if text then stderr else stderrBuffer
    }

    function Objects(): set<Sink>
    {
      {stdout, stdoutBuffer, stderr, stderrBuffer}
    }
  }

  /**
   * The library functions the engine calls but that are not part of it, as
   * uninterpreted functions: `bytes.decode()`, `os.fsdecode` on bytes,
   * `os.name == "posix"`, `shlex.split(s, posix=...)` and `shlex.join`.
   */
  datatype Platform = Platform(
    decode: Bytes -> string,
    fsdecode: Bytes -> string,
    posix: bool,
    shlexSplit: (string, bool) -> seq<string>,
    shlexJoin: seq<string> -> string)

  /** The started child: its two output pipes and the exit code it reports once joined. */
  datatype Child = Child(stdout: LineStream, stderr: LineStream, returncode: int)

  /** `subprocess.CompletedProcess`: the command as given, the exit code and the two captures. */
  datatype Completed<C> = Completed(args: C, returncode: int, stdout: Option<Data>, stderr: Option<Data>)

  /** The exceptions the engine raises. */
  datatype Error<C> =
    | SinkTypeError(textMode: bool)  // TypeError: a sink of the wrong kind for the mode
    | PathInShellError               // TypeError: a path-like command in shell mode
    | EmptyCommandError              // IndexError: no program to execute
    | KeywordClashError              // TypeError: `stdout`/`stderr` passed twice to the launcher
    | CalledProcessError(returncode: int, cmd: C, output: Option<Data>, stderr: Option<Data>)

  /** What `run` hands back: the not-yet-started coroutine, or the finished call's outcome. */
  datatype Dispatched<W, C> = Deferred(work: W) | Finished(outcome: Result<Completed<C>, Error<C>>)

  /** What sink `s` receives when the two pipes are drained into the resolved `sinks`:
      stdout's lines (decoded iff `outText`), then stderr's (decoded iff `errText`). */
  ghost function TeedTo(s: Sink, sinks: (Sink?, Sink?), out: seq<Bytes>, err: seq<Bytes>,
                        outText: bool, errText: bool, decode: Bytes -> string): seq<Data>
  {
    (if s == sinks.0 then Forwarded(out, outText, decode) else []) +
    (if s == sinks.1 then Forwarded(err, errText, decode) else [])
  }

  /**
   * `asyncio.gather` of the two text-flag readers of the older generations, taken one
   * after the other: stdout is drained into `outSink`, then stderr into `errSink`.
   * `frame` holds every sink the caller may forward to.
   */
  method Gather(child: Child, text: bool, capture: bool, outSink: Sink?, errSink: Sink?,
                decode: Bytes -> string, ghost frame: set<Sink>)
    returns (out: Option<Bytes>, err: Option<Bytes>)
    requires child.stdout != child.stderr
    requires outSink != null ==> outSink in frame
    requires errSink != null ==> errSink in frame
    modifies child.stdout, child.stderr, frame
    ensures child.stdout.pending == [] && child.stderr.pending == []
    ensures out == Captured(old(child.stdout.pending), capture)
    ensures err == Captured(old(child.stderr.pending), capture)
    ensures forall s :: s in frame ==>
      s.written == old(s.written) + TeedTo(s, (outSink, errSink), old(child.stdout.pending), old(child.stderr.pending),
                                           text, text, decode)
  {
    out := Tee(child.stdout, text, capture, outSink, decode);
    err := Tee(child.stderr, text, capture, errSink, decode);
  }

  /** `kwargs.pop(key, default)` as seen by the caller: the passed value, else the default. */
  function PopOr(passed: Option<StdioArg>, default: Sink): StdioArg
  {
    match passed
    case Some(v) => v
    case None => SinkArg(default)
  }

  /** The writable objects among the keyword arguments passed. */
  function PassedSinks(passed: Option<StdioArg>): set<Sink>
  {
    if passed.Some? then ArgSinks(passed.value) else {}
  }

  /** A command of the two older generations: a string, or a list/tuple of strings. */
  datatype StrCommand = CmdString(s: string) | CmdList(tokens: seq<string>)

  /** What the older generations hand to the process launcher. */
  datatype StrLaunch = ExecArgv(program: string, args: seq<string>) | ShellLine(line: string)
  {
    /** The argument vector of an exec launch. */
    function Argv(): seq<string>
      requires ExecArgv?
    {
      [program] + args
    }
  }

  /**
   * One stream field of the result: in text mode `buf.decode() if buf else None`,
   * so an empty capture becomes None; in binary mode the raw buffer, None only when
   * nothing was captured.
   */
  function Field(buf: Option<Bytes>, text: bool, decode: Bytes -> string): (r: Option<Data>)
    ensures text ==> (r.None? <==> buf.None? || buf.value == [])
    ensures text && r.Some? ==> r.value == Str(decode(buf.value))
    ensures !text ==> (r.None? <==> buf.None?)
    ensures !text && r.Some? ==> r.value == Bin(buf.value)
  {
    if text then
      (if buf.Some? && buf.value != [] then Some(Str(decode(buf.value))) else None)
    else
      (if buf.Some? then Some(Bin(buf.value)) else None)
  }

  /**
   * Result assembly after both streams reached end of stream and the child exited:
   * raise CalledProcessError when `check` is set and the exit code is nonzero,
   * otherwise return the completed record.
   */
  function Assemble<C>(cmd: C, retcode: int, out: Option<Bytes>, err: Option<Bytes>,
                       text: bool, check: bool, decode: Bytes -> string): (r: Result<Completed<C>, Error<C>>)
    ensures r.Err? <==> check && retcode != 0
    ensures r.Err? ==> r.error.CalledProcessError? && r.error.returncode == retcode && r.error.cmd == cmd
    ensures r.Ok? ==> r.value.args == cmd && r.value.returncode == retcode
    ensures r.Ok? ==> r.value.stdout == Field(out, text, decode) && r.value.stderr == Field(err, text, decode)
  {
    var output := Field(out, text, decode);
    var error := Field(err, text, decode);
    if check && retcode != 0 then
      Err(CalledProcessError(retcode, cmd, output, error))
    else
      Ok(Completed(cmd, retcode, output, error))
  }

  /** A nonzero exit with `check` raises an error carrying exactly the exit code, command
      and stream fields that the same call without `check` returns. */
  lemma CheckRaisesWhatWouldBeReturned<C>(cmd: C, retcode: int, out: Option<Bytes>, err: Option<Bytes>,
                                          text: bool, decode: Bytes -> string)
    requires retcode != 0
    ensures var plain := Assemble(cmd, retcode, out, err, text, false, decode).value;
            Assemble(cmd, retcode, out, err, text, true, decode)
              == Err(CalledProcessError(plain.returncode, plain.args, plain.stdout, plain.stderr))
  {
  }

  /** An exit code of zero never raises, with or without `check`, and the two results agree. */
  lemma CheckIgnoresSuccess<C>(cmd: C, out: Option<Bytes>, err: Option<Bytes>, text: bool, decode: Bytes -> string)
    ensures Assemble(cmd, 0, out, err, text, true, decode) == Assemble(cmd, 0, out, err, text, false, decode)
    ensures Assemble(cmd, 0, out, err, text, true, decode).Ok?
  {
  }

  /** The text-mode reading of a binary-mode field: a non-empty buffer decoded, anything else None. */
  function DecodedField(f: Option<Data>, decode: Bytes -> string): Option<Data>
  {
    match f
    case Some(Bin(b)) => if b == [] then None else Some(Str(decode(b)))
    case _ => None
  }

  /** A text-mode field is the decoding of the binary-mode field of the same capture,
      except that an empty capture is None in text mode and `b""` in binary mode. */
  lemma TextFieldDecodesBinaryField(buf: Option<Bytes>, decode: Bytes -> string)
    ensures Field(buf, true, decode) == DecodedField(Field(buf, false, decode), decode)
    ensures buf == Some([]) ==> Field(buf, true, decode) == None && Field(buf, false, decode) == Some(Bin([]))
  {
  }
}
