/**
 * The stream tee reader shared by all three generations of the engine:
 * a child's output pipe read line by line, a writable sink, and the loop
 * that drains the one into the other while capturing.
 */
module Streams {
  import opened Wrappers

  newtype byte = x: int | 0 <= x < 256

  /** A Python `bytes` value. */
  type Bytes = seq<byte>

  /** Whether a writable is a text stream (an instance of TextIOBase/TextIO) or not. */
  datatype IoKind = TextIo | BinaryIo

  /** What one `write` call hands to a sink: a `str` or a `bytes`. */
  datatype Data = Str(text: string) | Bin(bytes: Bytes)

  /** `b"".join(lines)`. */
  function Concat(lines: seq<Bytes>): Bytes
  {
    if lines == [] then [] else lines[0] + Concat(lines[1..])
  }

  /** The argument of the `write` call made for one line: decoded text, or the raw line. */
  function ChunkOf(line: Bytes, text: bool, decode: Bytes -> string): (d: Data)
    ensures d.Str? == text
    ensures text ==> d.text == decode(line)
    ensures !text ==> d.bytes == line
  {
    if text then Str(decode(line)) else Bin(line)
  }

  /** Everything a sink is handed while `lines` are teed into it, one write per line. */
  function Forwarded(lines: seq<Bytes>, text: bool, decode: Bytes -> string): (r: seq<Data>)
    ensures |r| == |lines|
    ensures forall k :: 0 <= k < |lines| ==> r[k] == ChunkOf(lines[k], text, decode)
  {
    if lines == [] then [] else [ChunkOf(lines[0], text, decode)] + Forwarded(lines[1..], text, decode)
  }

  /** Teeing one more line adds exactly that line's write at the end. */
  lemma {:induction false} ForwardedSnoc(lines: seq<Bytes>, line: Bytes, text: bool, decode: Bytes -> string)
    ensures Forwarded(lines + [line], text, decode) == Forwarded(lines, text, decode) + [ChunkOf(line, text, decode)]
  {
    if lines == [] {
      assert lines + [line] == [line];
    } else {
      assert (lines + [line])[1..] == lines[1..] + [line];
      ForwardedSnoc(lines[1..], line, text, decode);
    }
  }

  /** The bytes a binary sink ends up holding after the writes `chunks` (text writes add none). */
  function BytesWritten(chunks: seq<Data>): Bytes
  {
    if chunks == [] then []
    else (if chunks[0].Bin? then chunks[0].bytes else []) + BytesWritten(chunks[1..])
  }

  /** The value `_tee_stream` returns for a stream whose lines were `lines`. */
  function Captured(lines: seq<Bytes>, shouldCapture: bool): (r: Option<Bytes>)
    ensures r.Some? <==> shouldCapture
  {
    if shouldCapture then Some(Concat(lines)) else None
  }

  /** In binary mode the bytes teed to a sink are exactly the bytes captured. */
  lemma {:induction false} TeedBytesAreCaptured(lines: seq<Bytes>, decode: Bytes -> string)
    ensures BytesWritten(Forwarded(lines, false, decode)) == Concat(lines)
    ensures Captured(lines, true) == Some(BytesWritten(Forwarded(lines, false, decode)))
  {
    if lines != [] {
      TeedBytesAreCaptured(lines[1..], decode);
      var f := Forwarded(lines, false, decode);
      assert f == [Bin(lines[0])] + Forwarded(lines[1..], false, decode);
      assert f[1..] == Forwarded(lines[1..], false, decode);
    }
  }

  /** `isinstance(sink, (TextIOBase, TextIO))`: the sink is present and a text stream. */
  predicate IsText(sink: Sink?)
  {
    sink != null && sink.kind == TextIo
  }

  /** A writable destination: `sys.stdout`, `sys.stdout.buffer`, a StringIO, a BytesIO, ... */
  class Sink {
    const kind: IoKind
    /** Every argument of every `write` call, in call order. */
    var written: seq<Data>

    constructor (kind: IoKind)
      ensures this.kind == kind && written == []
    {
      this.kind := kind;
      written := [];
    }

    method Write(d: Data)
      modifies this
      ensures written == old(written) + [d]
    {
      written := written + [d];
    }
  }

  /** A child's output pipe, as a StreamReader: the lines it will still deliver, front first. */
  class LineStream {
    var pending: seq<Bytes>

    constructor (lines: seq<Bytes>)
      ensures pending == lines
    {
      pending := lines;
    }

    /** `at_eof()`: nothing left to read. */
    predicate AtEof()
      reads this
    {
      pending == []
    }

    /** `readline()`: the next line, or `b""` once at end of stream. */
    method ReadLine() returns (line: Bytes)
      modifies this
      ensures old(pending) == [] ==> line == [] && pending == []
      ensures old(pending) != [] ==> line == old(pending)[0] && pending == old(pending)[1..]
    {
      if pending == [] {
        line := [];
      } else {
        line := pending[0];
        pending := pending[1..];
      }
    }
  }

  /**
   * `_tee_stream` with a `text` flag: read until end of stream; keep each line when
   * capturing; write each line (decoded iff `text`) to the sink when there is one.
   * Returns the coalesced capture, or None when not capturing.
   */
  method Tee(stream: LineStream, text: bool, shouldCapture: bool, sink: Sink?, decode: Bytes -> string)
    returns (r: Option<Bytes>)
    modifies stream, sink
    ensures stream.pending == []
    ensures r == Captured(old(stream.pending), shouldCapture)
    ensures sink != null ==> sink.written == old(sink.written) + Forwarded(old(stream.pending), text, decode)
  {
    var stdio: seq<Bytes> := [];
    ghost var lines := stream.pending;
    ghost var i := 0;
    while !stream.AtEof()
      invariant i <= |lines| && stream.pending == lines[i..]
      invariant stdio == if shouldCapture then lines[..i] else []
      invariant sink != null ==> sink.written == old(sink.written) + Forwarded(lines[..i], text, decode)
      decreases |stream.pending|
    {
      var lineb := stream.ReadLine();
      assert lineb == lines[i];
      assert lines[..i + 1] == lines[..i] + [lineb];
      ForwardedSnoc(lines[..i], lineb, text, decode);
      if shouldCapture {
        stdio := stdio + [lineb];
      }
      if sink != null {
        if text {
          sink.Write(Str(decode(lineb)));
        } else {
          sink.Write(Bin(lineb));
        }
      }
      i := i + 1;
    }
    assert lines[..i] == lines;
    if shouldCapture {
      return Some(Concat(stdio));
    }
    return None;
  }
}
