/** The frame sources and sinks of the encoding package, the media type, the
    codec and the functional adapters. A frame is a byte sequence handed over
    whole; `Source` and `Sink` are factories of one frame reading or frame
    writing session bound to a byte endpoint. */
module Encoding {
  import opened Io

  /** A frame as a Go `[]byte`: the nil slice, or a (possibly empty) slice. */
  datatype Frame = Nil | Bytes(data: seq<byte>) {
    /** The bytes of the frame; the nil slice has none. */
    function Contents(): (bytes: seq<byte>) {
      if Nil? then [] else data
    }
  }

  /** What one `ReadFrame` call returns. */
  datatype ReadResult = ReadResult(frame: Frame, err: Option<Error>)

  // ---------------------------------------------------------------------
  // The state of a SourceReader session, and the reads it answers
  // ---------------------------------------------------------------------

  /** The variables a SourceReader frame reader captures: the buffer `b`
      and the drain error `err`. */
  datatype Session = Session(b: Frame, err: Option<Error>)

  /** The error a SourceReader frame reader reports: the drain error when
      there was one, io.EOF otherwise. */
  function Reported(drainErr: Option<Error>): (e: Error)
    ensures drainErr.Some? ==> e == drainErr.value
    ensures e == EOF <==> drainErr.None? || drainErr == Some(EOF)
  {
    if drainErr.Some? then drainErr.value else EOF
  }

  /** The answer to a `ReadFrame` in state `s`. */
  function Answer(s: Session): (r: ReadResult) {
    ReadResult(s.b, Some(Reported(s.err)))
  }

  /** The state after a `ReadFrame`: the buffer is dropped. */
  function Next(s: Session): (t: Session) {
    s.(b := Nil)
  }

  /** The answers to `n` consecutive `ReadFrame` calls, starting in state `s`. */
  function Reads(s: Session, n: nat): (rs: seq<ReadResult>)
    ensures |rs| == n
    decreases n
  {
    if n == 0 then [] else [Answer(s)] + Reads(Next(s), n - 1)
  }

  /** All the bytes a sequence of answers hands over, in order. */
  function Payload(rs: seq<ReadResult>): (bytes: seq<byte>)
    decreases |rs|
  {
    if rs == [] then [] else rs[0].frame.Contents() + Payload(rs[1..])
  }

  /** One more read appends the answer of the state the session is then in:
      the initial state before any read, the drained state after one. */
  lemma {:induction false} ReadsSnoc(s: Session, n: nat)
    ensures Reads(s, n + 1) == Reads(s, n) + [Answer(if n == 0 then s else Next(s))]
    decreases n
  {
    if n > 0 {
      ReadsSnoc(Next(s), n - 1);
      assert Next(Next(s)) == Next(s);
    }
  }

  /** The k-th read of a session returns the buffered frame when k is 0 and
      the nil frame afterwards; every read returns the same, non-nil error:
      the drain error, or io.EOF when the drain was clean. */
  lemma {:induction false} ReadsAt(s: Session, n: nat, k: nat)
    requires k < n
    ensures Reads(s, n)[k].frame == (if k == 0 then s.b else Nil)
    ensures Reads(s, n)[k].err == Some(Reported(s.err))
    decreases k
  {
    if k > 0 {
      ReadsAt(Next(s), n - 1, k - 1);
    }
  }

  /** A session whose buffer is already nil hands over no bytes, however
      often it is read. */
  lemma {:induction false} SpentSessionDeliversNothing(s: Session, n: nat)
    requires s.b == Nil
    ensures Payload(Reads(s, n)) == []
  {
    if n > 0 {
      assert Next(s) == s;
      SpentSessionDeliversNothing(s, n - 1);
    }
  }

  /** Over any number of reads, a session hands over exactly its buffered
      bytes, once: nothing is repeated and nothing is lost. */
  lemma {:induction false} DeliveredOnce(s: Session, n: nat)
    ensures Payload(Reads(s, n)) == if n == 0 then [] else s.b.Contents()
  {
    if n > 0 {
      var rs := Reads(s, n);
      assert rs[1..] == Reads(Next(s), n - 1);
      SpentSessionDeliversNothing(Next(s), n - 1);
      assert Payload(rs) == s.b.Contents() + [];
    }
  }

  /** The frame reader of a SourceReader session: the closure that captures
      `b` and `err`. `initial` is the state the Source left it in and
      `delivered` the answers it has given so far. */
  class BufferedSession {
    var b: Frame
    const err: Option<Error>
    ghost const initial: Session
    ghost var delivered: seq<ReadResult>

    ghost predicate Valid()
      reads this
    {
      && err == initial.err
      && b == (if delivered == [] then initial.b else Nil)
      && delivered == Reads(initial, |delivered|)
    }

    constructor (b: Frame, err: Option<Error>)
      ensures Valid() && delivered == []
      ensures initial == Session(b, err)
    {
      this.b := b;
      this.err := err;
      initial := Session(b, err);
      delivered := [];
    }

    /** Returns the buffer and drops it, so that the bytes are returned once;
        the error is the drain error, or io.EOF when there was none. */
    method ReadFrame() returns (f: Frame, e: Option<Error>)
      requires Valid()
      modifies this
      ensures Valid()
      ensures f == old(b) && b == Nil
      ensures e == Some(Reported(err))
      ensures delivered == old(delivered) + [ReadResult(f, e)]
      ensures Payload(delivered) == initial.b.Contents()
    {
      ReadsSnoc(initial, |delivered|);
      f := b;
      b := Nil;
      e := err;
      if e.None? {
        e := Some(EOF);
      }
      delivered := delivered + [ReadResult(f, e)];
      DeliveredOnce(initial, |delivered|);
    }
  }

  // ---------------------------------------------------------------------
  // Sources
  // ---------------------------------------------------------------------

  /** The answer of a SourceNil frame reader: no frame, and io.EOF. */
  function NilRead(): (r: ReadResult)
    ensures r == Answer(Session(Nil, None))
  {
    ReadResult(Nil, Some(EOF))
  }

  /** A SourceNil frame reader answers every read as a SourceReader session
      would once its buffer is gone after a clean drain: it never hands over
      a byte. */
  lemma {:induction false} NilReaderIsSpentSession(n: nat)
    ensures forall k :: 0 <= k < n ==> Reads(Session(Nil, None), n)[k] == NilRead()
    ensures Payload(Reads(Session(Nil, None), n)) == []
  {
    forall k | 0 <= k < n
      ensures Reads(Session(Nil, None), n)[k] == NilRead()
    {
      ReadsAt(Session(Nil, None), n, k);
    }
    SpentSessionDeliversNothing(Session(Nil, None), n);
  }

  /** A frame reader (`framing.Reader`) as the two sources make them. */
  datatype FrameReader = NilReader | Buffered(session: BufferedSession) {

    ghost predicate Valid()
      reads if Buffered? then {session} else {}
    {
      Buffered? ==> session.Valid()
    }

    method ReadFrame() returns (f: Frame, e: Option<Error>)
      requires Valid()
      modifies if Buffered? then {session} else {}
      ensures Valid()
      ensures NilReader? ==> ReadResult(f, e) == NilRead()
      ensures Buffered? ==>
        && f == old(session.b) && session.b == Nil
        && e == Some(Reported(session.err))
        && session.delivered == old(session.delivered) + [ReadResult(f, e)]
    {
      match this
      case NilReader =>
        f, e := Nil, Some(EOF);
      case Buffered(s) =>
        f, e := s.ReadFrame();
    }
  }

  /** A `Source`: the closure `SourceNil(r)` or `SourceReader(r)` returns.
      SourceNil ignores its reader, so it carries none. */
  datatype Source = SourceNil | SourceReader(r: ByteReader) {

    /** Invokes the Source. SourceReader drains its reader now, at each
        invocation, and starts a fresh session holding what it drained. */
    method Open() returns (rd: FrameReader)
      modifies if SourceReader? then {r} else {}
      ensures rd.Valid()
      ensures SourceNil? ==> rd == NilReader
      ensures SourceReader? ==>
        && rd.Buffered? && fresh(rd.session)
        && rd.session.delivered == []
        && rd.session.initial == Session(Bytes(old(r.pending)), DrainError(r.terminal))
        && r.pending == []
    {
      match this
      case SourceNil =>
        rd := NilReader;
      case SourceReader(r) =>
        var b, err := r.ReadAll();
        var s := new BufferedSession(Bytes(b), err);
        rd := Buffered(s);
    }
  }

  /** Two sessions of one SourceReader, the second opened before the first is
      read: the first hands over everything the reader had, the second
      nothing (the reader is drained), each exactly once and each followed by
      the nil frame, and both report the reader's own end condition. */
  method TwoSessions(data: seq<byte>, terminal: Error)
    returns (first: seq<ReadResult>, second: seq<ReadResult>)
    ensures first == [ReadResult(Bytes(data), Some(terminal)), ReadResult(Nil, Some(terminal))]
    ensures second == [ReadResult(Bytes([]), Some(terminal)), ReadResult(Nil, Some(terminal))]
  {
    var r := new ByteReader(data, terminal);
    var src := SourceReader(r);
    var one := src.Open();
    var two := src.Open();
    var f2, e2 := two.ReadFrame();
    var f2', e2' := two.ReadFrame();
    var f1, e1 := one.ReadFrame();
    var f1', e1' := one.ReadFrame();
    first := [ReadResult(f1, e1), ReadResult(f1', e1')];
    second := [ReadResult(f2, e2), ReadResult(f2', e2')];
  }

  // ---------------------------------------------------------------------
  // Sinks
  // ---------------------------------------------------------------------

  /** The result of a frame write, given the frame's length and what the
      endpoint's one `Write` reported: its error unchanged if it gave one,
      otherwise io.ErrShortWrite unless it took the whole frame. */
  function CheckWrite(len: nat, n: nat, err: Option<Error>): (r: Option<Error>)
    ensures r.None? <==> err.None? && n == len
    ensures err.Some? ==> r == err
    ensures err.None? && n != len ==> r == Some(ErrShortWrite)
  {
    if err.None? && n != len then Some(ErrShortWrite) else err
  }

  /** A frame writer (`framing.Writer`) as SinkWriter makes it. */
  datatype FrameWriter = PlainWriter(w: ByteWriter) {

    /** Makes exactly one `Write` of the whole frame and checks its count;
        on success the whole frame has reached the endpoint. */
    method WriteFrame(b: seq<byte>) returns (e: Option<Error>)
      modifies w
      ensures |w.calls| == |old(w.calls)| + 1
      ensures w.calls[..|old(w.calls)|] == old(w.calls)
      ensures var call := w.calls[|old(w.calls)|];
        && call.p == b && call.n <= |b|
        && w.accepted == old(w.accepted) + b[..call.n]
        && e == CheckWrite(|b|, call.n, call.err)
      ensures e.None? ==> w.accepted == old(w.accepted) + b
    {
      var n, err := w.Write(b);
      assert w.calls[|old(w.calls)|] == WriteCall(b, n, err);
      if err.None? && n != |b| {
        return Some(ErrShortWrite);
      }
      assert err.None? ==> b[..n] == b;
      return err;
    }
  }

  /** A `Sink`: the closure `SinkWriter(w)` returns. */
  datatype Sink = SinkWriter(w: ByteWriter) {
    /** Invokes the Sink: a frame writer bound to the same endpoint. */
    function Open(): (fw: FrameWriter)
      ensures fw.w == w
    {
      PlainWriter(w)
    }
  }

  /** Two frames written in turn through one SinkWriter: when both writes
      succeed, the endpoint has received the first frame followed by the
      second, nothing more and nothing less. The sink keeps no error between
      calls: whatever the first write did, the second is still made, and the
      endpoint holds a prefix of the first frame followed by a prefix of the
      second. */
  method WriteTwoFrames(a: seq<byte>, b: seq<byte>)
    returns (ea: Option<Error>, eb: Option<Error>, received: seq<byte>)
    ensures ea.None? && eb.None? ==> received == a + b
    ensures ea.None? ==> |a| <= |received| && received[..|a|] == a
    ensures exists i, j :: 0 <= i <= |a| && 0 <= j <= |b| && received == a[..i] + b[..j]
  {
    var w := new ByteWriter();
    var fw := SinkWriter(w).Open();
    ea := fw.WriteFrame(a);
    ghost var i := w.calls[0].n;
    eb := fw.WriteFrame(b);
    ghost var j := w.calls[1].n;
    received := w.accepted;
    assert received == a[..i] + b[..j];
  }

  // ---------------------------------------------------------------------
  // Media types, codecs and the functional adapters
  // ---------------------------------------------------------------------

  /** A `MediaType`: a string naming a wire representation. */
  datatype MediaType = MediaType(name: string) {
    /** The HTTP Content-Type for the media type: its own string, so it
        converts back to the same media type. */
    function ContentType(): (s: string)
      ensures MediaType(s) == this
    {
      name
    }
  }

  /** `EncoderFunc`: any function from a message to an error is an Encoder. */
  datatype EncoderFunc<-M> = EncoderFunc(f: M -> Option<Error>) {
    function Encode(m: M): (e: Option<Error>)
      ensures e == f(m)
    {
      f(m)
    }
  }

  /** `DecoderFunc`: any function from a message to an error is a Decoder. */
  datatype DecoderFunc<-U> = DecoderFunc(f: U -> Option<Error>) {
    function Decode(u: U): (e: Option<Error>)
      ensures e == f(u)
    {
      f(u)
    }
  }

  /** `SourceFactoryFunc`: any function from a reader to a Source is a
      SourceFactory. */
  datatype SourceFactoryFunc = SourceFactoryFunc(f: ByteReader -> Source) {
    function NewSource(r: ByteReader): (s: Source)
      ensures s == f(r)
    {
      f(r)
    }
  }

  /** `SinkFactoryFunc`: any function from a writer to a Sink is a
      SinkFactory. */
  datatype SinkFactoryFunc = SinkFactoryFunc(f: ByteWriter -> Sink) {
    function NewSink(w: ByteWriter): (s: Sink)
      ensures s == f(w)
    {
      f(w)
    }
  }

  /** A `Codec`: a named serialization format with its media type and the
      builders of its encoders and decoders. The model keeps its fields
      constant after construction. */
  class Codec<M, U> {
    const name: string
    const mediaType: MediaType
    const newEncoder: Sink -> EncoderFunc<M>
    const newDecoder: Source -> DecoderFunc<U>

    constructor (name: string, mediaType: MediaType,
                 newEncoder: Sink -> EncoderFunc<M>, newDecoder: Source -> DecoderFunc<U>)
      ensures this.name == name && this.mediaType == mediaType
      ensures this.newEncoder == newEncoder && this.newDecoder == newDecoder
    {
      this.name := name;
      this.mediaType := mediaType;
      this.newEncoder := newEncoder;
      this.newDecoder := newDecoder;
    }
  }

  /** `(*Codec).String`: the codec's name, and the empty string for a nil
      codec. */
  function String<M, U>(c: Codec?<M, U>): (s: string)
    ensures c == null ==> s == ""
    ensures c != null ==> s == c.name
  {
    if c == null then "" else c.name
  }
}
