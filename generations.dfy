/**
 * How the three generations' sink resolution differs: they agree on int constants,
 * while only the current one checks the sink's kind, and `None` means "the standard
 * stream" in the current one but "forward nothing" in the older two.
 */
module Generations {
  import opened Wrappers
  import opened Streams
  import opened Processes
  import TeeSubprocess
  import TeeSubprocessLegacy
  import SubprocessTee

  /** STDOUT and PIPE route to standard output and other ints discard, in every generation. */
  lemma IntDescriptorsAgree(n: int, default: Sink, text: bool, std: StdStreams)
    ensures TeeSubprocess.CoerceStdio(IntArg(n), default, text, std) == Ok(SubprocessTee.CoerceStdio(IntArg(n), text, std))
    ensures SubprocessTee.CoerceStdio(IntArg(n), text, std) == if n in {STDOUT, PIPE} then std.Out(text) else null
  {
  }

  /** `None` resolves to the default stream in the current generation and to no sink before. */
  lemma NoneDescriptorDiffers(default: Sink, text: bool, std: StdStreams)
    ensures TeeSubprocess.CoerceStdio(NoneArg, default, text, std) == Ok(default)
    ensures SubprocessTee.CoerceStdio(NoneArg, text, std) == null
  {
  }

  /** A sink of the wrong kind is a TypeError only in the current generation; the older two
      forward to it unchanged. */
  lemma KindCheckOnlyInCurrent(s: Sink, default: Sink, text: bool, std: StdStreams)
    requires s.kind != KindFor(text)
    ensures TeeSubprocess.CoerceStdio(SinkArg(s), default, text, std) == Err(SinkTypeError(text))
    ensures SubprocessTee.CoerceStdio(SinkArg(s), text, std) == s
  {
  }

  /** Leaving `stdout` out gives the standard stream in both tee-capable generations, but
      passing `stdout=None` forwards nothing in the middle one and to the standard stream
      in the current one. */
  lemma UnsetAndNoneStdout(std: StdStreams, text: bool)
    ensures TeeSubprocessLegacy.ResolveSinks(TeeSubprocessLegacy.Defaults.(text := text), std).0 == std.Out(text)
    ensures TeeSubprocessLegacy.ResolveSinks(TeeSubprocessLegacy.Defaults.(text := text, stdout := Some(NoneArg)), std).0 == null
    ensures TeeSubprocess.ResolveSinks(TeeSubprocess.Defaults.(text := text), std).value.0 == std.Out(text)
  {
  }
}
