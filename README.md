# tee-subprocess, modelled in Dafny

`tee-subprocess` runs a child process and "tees" its output. Each line the child
writes to stdout or stderr is forwarded straight away to a sink chosen by the caller,
and can also be captured for the returned `CompletedProcess`. The repository holds
three generations of this engine, and this project models all three:

| generation | file | Dafny module |
|---|---|---|
| current | `tee_subprocess/subprocess.py` | `TeeSubprocess` (`tee_subprocess.dfy`) |
| middle | `tee_subprocess/__init__.py` | `TeeSubprocessLegacy` (`tee_subprocess_legacy.dfy`) |
| oldest | `subprocess_tee/__init__.py` | `SubprocessTee` (`subprocess_tee.dfy`) |

Shared pieces:

* `Streams` (`streams.dfy`) provides:
  * Python `bytes` as `seq<byte>`;
  * the `Sink` class, a writable that records every `write` argument in order;
  * the `LineStream` class, a child's pipe with `AtEof`/`ReadLine`;
  * the tee loop `Tee`, which is `_tee_stream` with a text flag;
  * its specification functions `Forwarded` (what the sink receives) and `Captured` (what is returned).
* `Processes` (`processes.dfy`) provides:
  * the `subprocess` int constants;
  * the tagged `stdout=`/`stderr=` descriptor `StdioArg` (int, `None`, or a writable);
  * the standard streams `sys.stdout`, `sys.stdout.buffer`, `sys.stderr` and `sys.stderr.buffer`, passed in as a `StdStreams` record;
  * the foreign helpers, as a `Platform` record of uninterpreted functions;
  * the child process: two line streams and an exit code;
  * the result record, the exceptions, and the result-assembly rule `Assemble`, which all three generations share.
* `Generations` (`generations.dfy`) holds lemmas that contrast how the three generations resolve sinks.
* `Wrappers` (`wrappers.dfy`) holds `Option` and `Result`.

Each generation module has the same parts:

* sink resolution (`CoerceStdio`, `ResolveSinks`). `TeeSubprocessLegacy` has no `CoerceStdio` of its own: its `_coerce_stdio` (tee_subprocess/__init__.py:66-82) is textually identical to the oldest one (subprocess_tee/__init__.py:64-80), so it calls `SubprocessTee.CoerceStdio`;
* command shaping (`ExecTokens`, `ShapeCommand`);
* a pure specification `Outcome` of what `_target` raises or returns, given the lines on the two pipes and the exit code;
* the imperative `Target` method, which drains the child's pipes into the sinks and is proved equal to `Outcome`;
* the `Run` dispatch method.

Python exceptions are `Err` values of the `Error` datatype, so every error path is a value and not a precondition.

The three generations differ in four places, and the model follows each one's code:

* Kind check on sinks. The current generation raises a `TypeError` for a text sink in binary mode and for a binary sink in text mode. The two older generations make no such check, and forward to whatever object they are given.
* Meaning of `None`. Passing `None` gives the default stream only in the current generation. In the middle one, `stdout=None` forwards nothing. In the oldest, `None` always forwards nothing.
* An empty exec command. In the oldest, `cmd.split(" ")` always gives at least one piece, so only an empty list raises (subprocess_tee/__init__.py:105,109). In the later two, a string that `shlex.split` turns into no tokens raises too (tee_subprocess/subprocess.py:165,171; tee_subprocess/__init__.py:120,124). In all three the error is the `IndexError` from `_tcmd[0]`, modelled as `EmptyCommandError`.
* A call made while an event loop is running. The oldest `run` finishes it on a worker thread. The two later ones return the coroutine unstarted.

## Model

| member | source | states |
|---|---|---|
| Streams.ChunkOf | tee_subprocess/__init__.py:54-58 | one line's write is a `str` exactly in text mode: the decoded line in text mode, the raw line otherwise |
| Streams.Forwarded | tee_subprocess/__init__.py:46-58 | a sink fed `lines` receives one write per line, in read order, the k-th write being that line's chunk |
| Streams.ForwardedSnoc | tee_subprocess/__init__.py:46-58 | teeing one more line appends exactly that line's write and changes nothing before it |
| Streams.Captured | tee_subprocess/__init__.py:60-63 | the tee reader returns a buffer exactly when capturing |
| Streams.TeedBytesAreCaptured | tee_subprocess/subprocess.py:60-80 | in binary mode the concatenation of the bytes written to the sink equals the concatenation of the lines read, which is the captured buffer |
| Streams.LineStream.ReadLine | tee_subprocess/subprocess.py:63-64 | reading pops the front line; at end of stream it yields `b""` and leaves the stream unchanged |
| Streams.Sink.Write | tee_subprocess/subprocess.py:71-75 | a write appends its argument to what the sink holds, and nothing else |
| Streams.Tee | tee_subprocess/__init__.py:35-63 | after the loop the stream is at end of stream; the result is the in-order concatenation of all lines when capturing and None otherwise; the sink received exactly `Forwarded` of those lines, decoded iff `text` |
| Processes.StdStreams.Out | tee_subprocess/__init__.py:103 | the mode's standard output has the mode's kind: text stream in text mode, `.buffer` in binary mode |
| Processes.StdStreams.Err | tee_subprocess/__init__.py:104 | the same for standard error |
| Processes.Gather | tee_subprocess/__init__.py:156-161 | both pipes end at end of stream; each capture is that pipe's `Captured`; every sink receives the stdout writes if it is the stdout sink, then the stderr writes if it is the stderr sink, and nothing else |
| Processes.Field | tee_subprocess/subprocess.py:217-236 | text field is None iff nothing or nothing non-empty was captured and is otherwise the decoded buffer; binary field is None iff nothing was captured and is otherwise the raw buffer |
| Processes.Assemble | tee_subprocess/subprocess.py:217-236 | an error iff `check` and a nonzero exit code, and then a CalledProcessError with that code and the original command; otherwise a record with the original command, the code and the two fields |
| Processes.CheckRaisesWhatWouldBeReturned | tee_subprocess/subprocess.py:221-236 | on a nonzero exit, `check` raises CalledProcessError carrying exactly the code, command, stdout and stderr of the record returned without `check` |
| Processes.CheckIgnoresSuccess | tee_subprocess/subprocess.py:221-236 | exit code 0 never raises and gives the same record with or without `check` |
| Processes.TextFieldDecodesBinaryField | tee_subprocess/subprocess.py:217-236 | a text field is the decoding of the binary field of the same capture, except that an empty capture is None in text mode and `b""` in binary mode |
| TeeSubprocess.CoerceStdio | tee_subprocess/subprocess.py:96-123 | TypeError iff a writable's kind does not fit the mode; STDOUT/PIPE give the mode's standard output, other ints no sink; None gives the default; a fitting writable comes back unchanged; a resolved sink has the mode's kind |
| TeeSubprocess.ResolveSinks | tee_subprocess/subprocess.py:142-151 | without tee both sinks are absent; with tee it fails iff either descriptor mismatches the mode, and otherwise stdout's sink is the coercion of `stdout=` against standard output and stderr's the coercion of `stderr=` against standard error; the resolved sinks are among the call's writables and have the mode's kind |
| TeeSubprocess.PassedSinkIsUsed | tee_subprocess/subprocess.py:146-151 | a writable passed as `stdout=` that fits the mode is the sink stdout is forwarded to |
| TeeSubprocess.ExecTokens | tee_subprocess/subprocess.py:156-169 | a list/tuple is used as is, a path-like alone becomes the sole element, a str/bytes becomes the `shlex` tokens of its `fsdecode` |
| TeeSubprocess.ShapeCommand | tee_subprocess/subprocess.py:154-198 | exec mode fails iff there is no token, and otherwise the program plus args are exactly the tokens; shell mode fails iff some element is path-like, a bare str/bytes passes through unchanged, and a list/tuple becomes the `shlex.join` of its `fsdecode`d elements |
| TeeSubprocess.Outcome | tee_subprocess/subprocess.py:142-236 | sink errors come before command errors, which come before the check; a launchable call's result is `Assemble` of the two captures |
| TeeSubprocess.CaptureIndependentOfTee | tee_subprocess/subprocess.py:142-151 | with tee off no sink is resolved, and turning tee off never changes a result the tee-on call returns or raises after passing its sink checks |
| TeeSubprocess.DefaultSinksAreStandardStreams | tee_subprocess/subprocess.py:144-151 | with no `stdout`/`stderr` the sinks are the mode's standard output and standard error |
| TeeSubprocess.StderrIntoStdout | tee_subprocess/subprocess.py:103-110 | `stderr=STDOUT` or `PIPE` forwards stderr to standard output |
| TeeSubprocess.BinaryTeeEqualsCapture | tee_subprocess/subprocess.py:60-80 | in binary mode the bytes written to the stdout sink are exactly the bytes stdout delivered, and equal the result's stdout when capturing (None when not) |
| TeeSubprocess.TextCaptureDecodesBinaryCapture | tee_subprocess/subprocess.py:217-236 | the text-mode result's fields are the binary-mode result's fields decoded, with the same exit code |
| TeeSubprocess.TeeStream | tee_subprocess/subprocess.py:52-80 | the reader ends at end of stream, returns `Captured`, and the sink receives every line once, in order, decoded exactly when the sink is a text stream |
| TeeSubprocess.Gather | tee_subprocess/subprocess.py:208-213 | as `Processes.Gather`, each stream decoded iff its own sink is a text stream |
| TeeSubprocess.Target | tee_subprocess/subprocess.py:126-236 | the result equals `Outcome` of the pipes' lines and exit code; a call failing its checks reads and writes nothing; otherwise both pipes are drained and every writable received exactly what the resolved sinks were teed |
| TeeSubprocess.Run | tee_subprocess/subprocess.py:294-320 | with an event loop running, the unstarted call is returned and nothing is read or written; otherwise the finished call's `Outcome`, with the pipes drained and every writable holding what `Target` promises |
| TeeSubprocessLegacy.ResolveSinks | tee_subprocess/__init__.py:99-106 | without tee both sinks are absent; with tee an omitted stream gets the mode's standard stream and a passed value goes through the unchecked coercion, so `None` forwards nothing |
| TeeSubprocessLegacy.ExecTokens | tee_subprocess/__init__.py:109-122 | a string becomes its `shlex` tokens, a list/tuple is used as is |
| TeeSubprocessLegacy.ShapeCommand | tee_subprocess/__init__.py:109-146 | exec mode fails iff there is no token, and the program plus args are otherwise exactly the tokens; shell mode never fails, a string passes through and a list is `shlex.join`ed |
| TeeSubprocessLegacy.Outcome | tee_subprocess/__init__.py:99-189 | command errors, then the duplicate `stdout`/`stderr` keyword TypeError when tee is off, then `Assemble` with `check` |
| TeeSubprocessLegacy.CaptureIndependentOfTee | tee_subprocess/__init__.py:99-106 | without sink arguments, turning tee off does not change the result |
| TeeSubprocessLegacy.SinkArgumentWithoutTeeRaises | tee_subprocess/__init__.py:99-133 | with tee off, a passed `stdout` or `stderr` reaches the launcher beside its own, so every launchable command raises before the child runs |
| TeeSubprocessLegacy.Target | tee_subprocess/__init__.py:85-189 | the result equals `Outcome`; a call that cannot launch reads and writes nothing; otherwise every writable receives what the resolved sinks were teed, decoded iff text mode |
| TeeSubprocessLegacy.Run | tee_subprocess/__init__.py:192-212 | with an event loop running, the unstarted call is returned and nothing changes; otherwise the finished call's `Outcome`, with the pipes drained and every writable holding what `Target` promises |
| SubprocessTee.CoerceStdio | subprocess_tee/__init__.py:64-80 | STDOUT/PIPE give the mode's standard output, other ints and None no sink, a writable comes back unchanged whatever its kind; it also models the identical `_coerce_stdio` of the middle generation, tee_subprocess/__init__.py:66-82 |
| SubprocessTee.ResolveSinks | subprocess_tee/__init__.py:95-98 | an omitted stream gets the mode's standard stream, a passed value its coercion; resolved sinks are among the call's writables |
| SubprocessTee.Split | subprocess_tee/__init__.py:104-105 | `split(" ")` gives at least one piece and no piece holds a space |
| SubprocessTee.JoinPrefix | subprocess_tee/__init__.py:122-123 | prefixing the first token prefixes the `" ".join` |
| SubprocessTee.JoinSplit | subprocess_tee/__init__.py:104-105 | `" ".join(s.split(" ")) == s` for every string |
| SubprocessTee.SplitSpaceFree | subprocess_tee/__init__.py:104-105 | a string without a space splits into itself |
| SubprocessTee.SplitToken | subprocess_tee/__init__.py:104-105 | a space-free token, a space and the rest split into the token followed by the rest's pieces |
| SubprocessTee.SplitJoin | subprocess_tee/__init__.py:104-123 | splitting the space-join of a non-empty list of space-free tokens gives the list back |
| SubprocessTee.ExecTokens | subprocess_tee/__init__.py:103-107 | a string's tokens are at least one, hold no space, and space-join back to the string, which determines `split(" ")`; a list is used as is |
| SubprocessTee.ShapeCommand | subprocess_tee/__init__.py:101-125 | exec mode fails iff the command is the empty list, and the program plus args are otherwise the tokens; shell mode never fails, a string passes through and a list is space-joined |
| SubprocessTee.Outcome | subprocess_tee/__init__.py:141-157 | the only error is the empty exec command; any exit code, nonzero included, is returned with the original command and the two fields |
| SubprocessTee.StringAndListFormsAgree | subprocess_tee/__init__.py:101-125 | `CMD` and `" ".join(CMD)`, for space-free tokens, launch identically in both modes and give the same result apart from the stored command |
| SubprocessTee.BinaryTeeEqualsCapture | subprocess_tee/__init__.py:41-61 | in binary mode the bytes written to the stdout sink are exactly the bytes stdout delivered, and equal the result's stdout when capturing |
| SubprocessTee.Target | subprocess_tee/__init__.py:83-157 | the result equals `Outcome`; an empty exec command reads and writes nothing; otherwise every writable receives what the resolved sinks were teed, decoded iff text mode |
| SubprocessTee.Run | subprocess_tee/__init__.py:160-184 | without tee the call is handed to `subprocess.run` untouched; with tee the finished call's `Outcome` is returned whether or not an event loop is running, with the pipes drained and every writable holding what `Target` promises |
| Streams.IsText | tee_subprocess/subprocess.py:71-72 | `if sink:` and `isinstance(sink, (TextIOBase, TextIO))`: the sink is present and a text stream; `TeeSubprocess.TeeStream` and `Target` decode exactly when it holds |
| Processes.RoutesToStdout | tee_subprocess/subprocess.py:104-109 | the int is `STDOUT` or `PIPE` (the `asyncio.subprocess` names are the same values); every generation's `CoerceStdio` maps exactly these ints to standard output |
| TeeSubprocess.Mismatched | tee_subprocess/subprocess.py:116-121 | a writable that is not text in text mode, or text in binary mode; `CoerceStdio` raises its TypeError exactly when it holds |
| Streams.Concat | tee_subprocess/subprocess.py:78 | `b"".join(lines)`; what it yields for teed lines is stated by `TeedBytesAreCaptured` |
| Streams.LineStream.AtEof | tee_subprocess/subprocess.py:63 | `at_eof()`: true exactly when no line is left to deliver |
| Processes.PopOr | tee_subprocess/__init__.py:105-106 | `kwargs.pop(key, default)`: the passed value, else the default stream; its use is stated by the `ResolveSinks` contracts of both older generations |
| TeeSubprocess.FsDecode | tee_subprocess/subprocess.py:165 | `os.fsdecode`: str and path-like unchanged, bytes through the platform decoder; used by `ExecTokens` and `ShapeCommand` |
| TeeSubprocess.HasPathLike | tee_subprocess/subprocess.py:184-187 | the command, or some element of it, is path-like; `ShapeCommand` fails in shell mode exactly when it holds |
| TeeSubprocessLegacy.KeywordLeftOver | tee_subprocess/__init__.py:101-133 | tee is off and `stdout` or `stderr` was passed, so it stays in `kwargs` and meets the launcher's own `stdout=PIPE, stderr=PIPE`; stated by `SinkArgumentWithoutTeeRaises` |
| SubprocessTee.Join | subprocess_tee/__init__.py:123 | `" ".join(ts)`; `JoinSplit` and `SplitJoin` state it inverts `split(" ")` |
| Generations.IntDescriptorsAgree | tee_subprocess/subprocess.py:103-112 | all generations map STDOUT/PIPE to standard output and every other int to no sink |
| Generations.NoneDescriptorDiffers | tee_subprocess/subprocess.py:113-114 | `None` gives the default stream in the current generation and no sink in the oldest |
| Generations.KindCheckOnlyInCurrent | tee_subprocess/subprocess.py:116-123 | a writable of the wrong kind raises only in the current generation; the oldest forwards to it |
| Generations.UnsetAndNoneStdout | tee_subprocess/__init__.py:103-105 | an omitted `stdout` gives standard output in the middle and current generations; `stdout=None` forwards nothing in the middle one |

## Left out

- Process spawning, pipes, `communicate()` and `returncode` are OS I/O and are not modelled. The child is given as two line sequences and an exit code.
- Exceptions from the launcher itself are not modelled: a missing executable, a refused permission, or an unexpected keyword.
- Concurrency is not modelled: `asyncio.gather`, the event loop, `asyncio.run` and the one-worker thread pool of the oldest `run`. Dispatch is a boolean "event loop is running" input.
- Processes.Gather drains stdout and then stderr, one after the other. When both streams are teed into the same writable, the real order of their lines in that writable depends on scheduling. The model fixes it as all stdout lines, then all stderr lines.
- TeeSubprocess.Gather: fixes the stdout-then-stderr order in a shared writable, for the same reason.
- `bytes.decode()`, `os.fsdecode`, `shlex.split`, `shlex.join` and `os.name` are library code outside this repository. They are uninterpreted functions of `Platform`, and no property of the quoting is stated.
- Exceptions raised inside the foreign helpers are not modelled, because the helpers are total functions here: a `UnicodeDecodeError` from `lineb.decode()` or `out.decode()` (tee_subprocess/subprocess.py:73,218), and a `ValueError` from `shlex.split` on an unbalanced quote (tee_subprocess/subprocess.py:165; tee_subprocess/__init__.py:120).
- The `readline` length limit and its `ValueError` are left out. The line stream delivers whole lines of any length.
- `readline()` in asyncio can return `b""` after `at_eof()` was false, when end of stream arrives during the read, so the real loop often ends with one empty capture entry and one empty write. The model covers this only when the given line sequence ends with an empty line; it does not produce that extra line by itself.
- `warnings.warn` calls are left out. Their only effect is side output.
- In the oldest generation, `run` with `tee=False` calls `subprocess.run`, a foreign function. The model returns the call untouched as `Delegated`.
- Launch options passed through `**kwargs` (`cwd`, `env`, ...) are not modelled. In the oldest generation this includes `check`, which is handed on to the launcher.
- Writing a `str` to a binary writable, or `bytes` to a text one, raises a `TypeError` inside the writable. The two older generations allow this, but the model's sinks accept any chunk and record it.
- The `TYPE_CHECKING` overload stubs carry no behaviour and are left out.
- Lists and tuples are not told apart.
- A path-like object is modelled as the string it stands for.
- A `bool` passed as `stdout=`, which Python treats as an int, is not modelled.
