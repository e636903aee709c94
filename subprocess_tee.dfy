/**
 * The oldest engine, `subprocess_tee/__init__.py`: sinks always resolved from the
 * keyword arguments, commands split and joined on single spaces, no `check`, and a
 * `run` that always finishes the call before returning.
 */
module SubprocessTee {
  import opened Wrappers
  import opened Streams
  import opened Processes

  /** The keyword arguments `run` forwards to `_target`; `stdout`/`stderr` are None when not passed. */
  datatype Options = Options(
    shell: bool, captureOutput: bool, text: bool,
    stdout: Option<StdioArg>, stderr: Option<StdioArg>)

  /** `_target`'s defaults: exec mode, no capture, binary, standard sinks. */
  const Defaults := Options(false, false, false, None, None)

  datatype Call = Call(cmd: StrCommand, options: Options)

  /** What `run` returns: the result of `subprocess.run` (without tee), or the teed call's outcome. */
  datatype RunResult = Delegated(call: Call) | Done(outcome: Result<Completed<StrCommand>, Error<StrCommand>>)

  /** Every writable a call may forward to. */
  function Sinks(o: Options, std: StdStreams): set<Sink>
  {
    std.Objects() + PassedSinks(o.stdout) + PassedSinks(o.stderr)
  }

  /**
   * `_coerce_stdio` without any type check: STDOUT and PIPE become standard output
   * of the mode's kind, any other int discards, and every other value, None included,
   * is returned unchanged.
   */
  function CoerceStdio(stdio: StdioArg, text: bool, std: StdStreams): (r: Sink?)
    ensures stdio.IntArg? ==> r == (if RoutesToStdout(stdio.n) then std.Out(text) else null)
    ensures stdio.NoneArg? ==> r == null
    ensures stdio.SinkArg? ==> r == stdio.sink
  {
    match stdio
    case IntArg(n) => if n in {STDOUT, PIPE} then std.Out(text) else null
    case NoneArg => null
    case SinkArg(s) => s
  }

  /** The sink set-up of `_target`: each sink popped from the keyword arguments with the
      mode's standard stream as default, then coerced. */
  function ResolveSinks(o: Options, std: StdStreams): (r: (Sink?, Sink?))
    ensures o.stdout.None? ==> r.0 == std.Out(o.text)
    ensures o.stderr.None? ==> r.1 == std.Err(o.text)
    ensures o.stdout.Some? ==> r.0 == CoerceStdio(o.stdout.value, o.text, std)
    ensures o.stderr.Some? ==> r.1 == CoerceStdio(o.stderr.value, o.text, std)
    ensures (r.0 != null ==> r.0 in Sinks(o, std)) && (r.1 != null ==> r.1 in Sinks(o, std))
  {
    var stdout := std.Out(o.text);
    var stderr := std.Err(o.text);
    (CoerceStdio(PopOr(o.stdout, stdout), o.text, std), CoerceStdio(PopOr(o.stderr, stderr), o.text, std))
  }

  /** `s.split(" ")`: the pieces between single spaces, empty pieces included. */
  function Split(s: string): (r: seq<string>)
    ensures |r| >= 1
    ensures forall i :: 0 <= i < |r| ==> ' ' !in r[i]
  {
    if s == [] then [[]]
    else if s[0] == ' ' then [[]] + Split(s[1..])
    else
      var rest := Split(s[1..]);
      [[s[0]] + rest[0]] + rest[1..]
  }

  /** `" ".join(ts)`. */
  function Join(ts: seq<string>): string
  {
    if ts == [] then []
    else if |ts| == 1 then ts[0]
    else ts[0] + " " + Join(ts[1..])
  }

  /** Joining after prefixing the first token prefixes the joined string. */
  lemma JoinPrefix(c: char, ts: seq<string>)
    requires ts != []
    ensures Join([[c] + ts[0]] + ts[1..]) == [c] + Join(ts)
  {
    var ts' := [[c] + ts[0]] + ts[1..];
    assert ts'[1..] == ts[1..];
  }

  /** Joining the pieces of a split gives back the string. */
  lemma {:induction false} JoinSplit(s: string)
    ensures Join(Split(s)) == s
  {
    if s == [] {
    } else if s[0] == ' ' {
      JoinSplit(s[1..]);
      var r := [[]] + Split(s[1..]);
      assert r[1..] == Split(s[1..]);
      assert s == " " + s[1..];
    } else {
      JoinSplit(s[1..]);
      JoinPrefix(s[0], Split(s[1..]));
      assert s == [s[0]] + s[1..];
    }
  }

  /** A string without spaces splits into itself alone. */
  lemma {:induction false} SplitSpaceFree(t: string)
    requires ' ' !in t
    ensures Split(t) == [t]
  {
    if t != [] {
      assert ' ' !in t[1..] by {
        forall i | 0 <= i < |t[1..]| ensures t[1..][i] != ' ' { assert t[1..][i] == t[i + 1]; }
      }
      SplitSpaceFree(t[1..]);
      assert [t[0]] + t[1..] == t;
    }
  }

  /** Splitting a space-free token followed by a space and the rest gives the token, then the rest's pieces. */
  lemma {:induction false} SplitToken(t: string, rest: string)
    requires ' ' !in t
    ensures Split(t + " " + rest) == [t] + Split(rest)
  {
    if t == [] {
      assert t + " " + rest == " " + rest;
      assert (" " + rest)[1..] == rest;
    } else {
      assert ' ' !in t[1..] by {
        forall i | 0 <= i < |t[1..]| ensures t[1..][i] != ' ' { assert t[1..][i] == t[i + 1]; }
      }
      var s := t + " " + rest;
      assert s[0] == t[0] && s[0] != ' ';
      assert s[1..] == t[1..] + " " + rest;
      SplitToken(t[1..], rest);
      assert [t[0]] + t[1..] == t;
    }
  }

  /** Splitting a space-joined list of space-free tokens gives back the list. */
  lemma {:induction false} SplitJoin(ts: seq<string>)
    requires ts != []
    requires forall i :: 0 <= i < |ts| ==> ' ' !in ts[i]
    ensures Split(Join(ts)) == ts
  {
    if |ts| == 1 {
      SplitSpaceFree(ts[0]);
    } else {
      SplitJoin(ts[1..]);
      SplitToken(ts[0], Join(ts[1..]));
      assert [ts[0]] + ts[1..] == ts;
    }
  }

  /** The exec-mode tuple: a string split on single spaces, a list/tuple as is. */
  function ExecTokens(cmd: StrCommand): (argv: seq<string>)
    ensures cmd.CmdString? ==> argv != [] && Join(argv) == cmd.s && forall i :: 0 <= i < |argv| ==> ' ' !in argv[i]
    ensures cmd.CmdList? ==> argv == cmd.tokens
  {
    match cmd
    case CmdString(s) =>
      JoinSplit(s);
      Split(s)
    case CmdList(ts) => ts
  }

  /**
   * Command shaping: in exec mode the program is the first token and the rest are its
   * arguments (IndexError for an empty list); in shell mode a list is joined with single
   * spaces and a string passes through.
   */
  function ShapeCommand(cmd: StrCommand, shell: bool): (r: Result<StrLaunch, Error<StrCommand>>)
    ensures !shell ==> (r.Err? <==> cmd == CmdList([]))
    ensures r.Err? ==> r.error == EmptyCommandError
    ensures !shell && r.Ok? ==> r.value.ExecArgv? && r.value.Argv() == ExecTokens(cmd)
    ensures shell ==> r.Ok? && r.value.ShellLine?
    ensures shell && cmd.CmdString? ==> r.value.line == cmd.s
    ensures shell && cmd.CmdList? ==> r.value.line == Join(cmd.tokens)
  {
    if !shell then
      var argv := ExecTokens(cmd);
      if argv == [] then Err(EmptyCommandError) else Ok(ExecArgv(argv[0], argv[1..]))
    else
      match cmd
      case CmdList(ts) => Ok(ShellLine(Join(ts)))
      case CmdString(s) => Ok(ShellLine(s))
  }

  /**
   * What `_target` raises or returns for a child whose pipes deliver `out` and `err`
   * and that exits with `retcode`. There is no `check`: the only exception is the
   * IndexError of an empty exec command, and any exit code is returned.
   */
  function Outcome(cmd: StrCommand, o: Options, os: Platform,
                   out: seq<Bytes>, err: seq<Bytes>, retcode: int): (r: Result<Completed<StrCommand>, Error<StrCommand>>)
    ensures r.Err? <==> ShapeCommand(cmd, o.shell).Err?
    ensures r.Err? ==> r.error == EmptyCommandError
    ensures r.Ok? ==> r.value.args == cmd && r.value.returncode == retcode
    ensures r.Ok? ==> r.value.stdout == Field(Captured(out, o.captureOutput), o.text, os.decode)
    ensures r.Ok? ==> r.value.stderr == Field(Captured(err, o.captureOutput), o.text, os.decode)
  {
    match ShapeCommand(cmd, o.shell)
    case Err(e) => Err(e)
    case Ok(_) =>
      Assemble(cmd, retcode, Captured(out, o.captureOutput), Captured(err, o.captureOutput), o.text, false, os.decode)
  }

  /** `CMD` and `" ".join(CMD)` launch the same way, in both modes, and give the same
      result apart from the stored command, when no token holds a space. */
  lemma StringAndListFormsAgree(ts: seq<string>, o: Options, os: Platform,
                                out: seq<Bytes>, err: seq<Bytes>, retcode: int)
    requires ts != []
    requires forall i :: 0 <= i < |ts| ==> ' ' !in ts[i]
    ensures ShapeCommand(CmdString(Join(ts)), o.shell) == ShapeCommand(CmdList(ts), o.shell)
    ensures var a := Outcome(CmdString(Join(ts)), o, os, out, err, retcode);
            var b := Outcome(CmdList(ts), o, os, out, err, retcode);
            a.Ok? && b.Ok? && a.value.(args := CmdList(ts)) == b.value
  {
    SplitJoin(ts);
  }

  /** In binary mode a sink that only stdout is teed into ends up holding exactly the bytes
      stdout delivered; with capture on they are also the result's stdout field. */
  lemma BinaryTeeEqualsCapture(cmd: StrCommand, o: Options, std: StdStreams, os: Platform,
                               out: seq<Bytes>, err: seq<Bytes>, retcode: int)
    requires !o.text && ShapeCommand(cmd, o.shell).Ok?
    requires ResolveSinks(o, std).0 != null && ResolveSinks(o, std).0 != ResolveSinks(o, std).1
    ensures var sinks := ResolveSinks(o, std);
            var teed := TeedTo(sinks.0, sinks, out, err, false, false, os.decode);
            BytesWritten(teed) == Concat(out) &&
            Outcome(cmd, o, os, out, err, retcode).value.stdout == if o.captureOutput then Some(Bin(BytesWritten(teed))) else None
  {
    var sinks := ResolveSinks(o, std);
    assert TeedTo(sinks.0, sinks, out, err, false, false, os.decode) == Forwarded(out, false, os.decode);
    TeedBytesAreCaptured(out, os.decode);
  }

  /** `_target`: resolve the sinks, shape the command, tee both pipes of the child (decoding
      iff text mode) and assemble the result. An empty command starts nothing. */
  method Target(cmd: StrCommand, o: Options, std: StdStreams, os: Platform, child: Child)
    returns (r: Result<Completed<StrCommand>, Error<StrCommand>>)
    requires child.stdout != child.stderr
    modifies child.stdout, child.stderr, Sinks(o, std)
    ensures r == Outcome(cmd, o, os, old(child.stdout.pending), old(child.stderr.pending), child.returncode)
    ensures ShapeCommand(cmd, o.shell).Err? ==>
      child.stdout.pending == old(child.stdout.pending) && child.stderr.pending == old(child.stderr.pending) &&
      forall s :: s in Sinks(o, std) ==> s.written == old(s.written)
    ensures ShapeCommand(cmd, o.shell).Ok? ==>
      child.stdout.pending == [] && child.stderr.pending == [] &&
      forall s :: s in Sinks(o, std) ==>
        s.written == old(s.written) + TeedTo(s, ResolveSinks(o, std), old(child.stdout.pending), old(child.stderr.pending),
                                             o.text, o.text, os.decode)
  {
    var (outSink, errSink) := ResolveSinks(o, std);
    var launch := ShapeCommand(cmd, o.shell);
    if launch.Err? {
      return Err(launch.error);
    }
    var out, err := Gather(child, o.text, o.captureOutput, outSink, errSink, os.decode, Sinks(o, std));
    r := Assemble(cmd, child.returncode, out, err, o.text, false, os.decode);
  }

  /** `run`: without tee the call goes to `subprocess.run`; with tee it is always finished
      before returning, in a worker thread when an event loop is already running: no
      clause depends on the running-loop probe `loopRunning`. */
  method Run(cmd: StrCommand, tee: bool, o: Options, loopRunning: bool, std: StdStreams, os: Platform, child: Child)
    returns (r: RunResult)
    requires child.stdout != child.stderr
    modifies child.stdout, child.stderr, Sinks(o, std)
    ensures !tee ==>
      r == Delegated(Call(cmd, o)) &&
      child.stdout.pending == old(child.stdout.pending) && child.stderr.pending == old(child.stderr.pending) &&
      forall s :: s in Sinks(o, std) ==> s.written == old(s.written)
    ensures tee ==> r == Done(Outcome(cmd, o, os, old(child.stdout.pending), old(child.stderr.pending), child.returncode))
    ensures tee && ShapeCommand(cmd, o.shell).Err? ==>
      child.stdout.pending == old(child.stdout.pending) && child.stderr.pending == old(child.stderr.pending) &&
      forall s :: s in Sinks(o, std) ==> s.written == old(s.written)
    ensures tee && ShapeCommand(cmd, o.shell).Ok? ==>
      child.stdout.pending == [] && child.stderr.pending == [] &&
      forall s :: s in Sinks(o, std) ==>
        s.written == old(s.written) + TeedTo(s, ResolveSinks(o, std), old(child.stdout.pending), old(child.stderr.pending),
                                             o.text, o.text, os.decode)
  {
    if !tee {
      return Delegated(Call(cmd, o));
    }
    // with an event loop running: a fresh event loop in a one-worker thread pool, waited for;
    // otherwise a fresh event loop in this thread. Either way the call is finished here.
    var outcome := Target(cmd, o, std, os, child);
    return Done(outcome);
  }
}
