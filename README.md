# Frame sources and sinks of the mesos-go encoding package

This project models in Dafny the frame source and frame sink layer of
`api/v1/lib/encoding/types.go`. The layer has these parts:

- `SourceReader(r)`: a one-shot buffered source. Each time the Source is
  invoked, it drains the reader with `ioutil.ReadAll` and starts a session.
  The session's first `ReadFrame` returns the drained bytes. Every later
  `ReadFrame` returns the nil frame. Every call returns the drain error, or
  `io.EOF` when the drain was clean.
- `SourceNil`: always returns the nil frame and `io.EOF`.
- `SinkWriter(w)`: each `WriteFrame` makes one `Write` of the whole frame and
  turns a silent short write into `io.ErrShortWrite`.
- `MediaType.ContentType`, the nil-safe `(*Codec).String`, and the functional
  adapters `EncoderFunc`, `DecoderFunc`, `SourceFactoryFunc` and
  `SinkFactoryFunc`.

Files:

- `io.dfy` (module `Io`) holds the byte endpoints the layer is given.
  - An `io.Reader` is the bytes it still has plus the condition it ends with.
  - `ioutil.ReadAll` returns those bytes. It turns a clean `io.EOF` into a nil
    error.
  - An `io.Writer` is an endpoint of unknown behaviour. Each `Write` takes
    some prefix of the buffer and may report any error. A ghost log records
    every call.
- `encoding.dfy` (module `Encoding`) holds the core.
  - The state captured by the `SourceReader` closure (`b`, `err`) is the
    class `BufferedSession`. Its `ReadFrame` sets `b` to nil.
  - The closures `Source`, `Sink`, `framing.Reader` and `framing.Writer` are
    datatypes. Their methods dispatch on which factory made them.
  - The pure function `Reads(s, n)` gives the answers to `n` consecutive
    reads. The session keeps a ghost history of its answers, and its
    invariant ties that history to `Reads`. The lemmas about `Reads`
    therefore describe every sequence of calls.

Go's nil slice and a non-nil empty slice are kept apart (`Frame.Nil`,
`Frame.Bytes([])`). `ReadAll` returns a non-nil slice, so the first read of
a session returns `Bytes(data)` even when `data` is empty. Later reads
return `Nil`. A nil Go `error` is `Option.None`.

## Model

| member | source | states |
|---|---|---|
| `Io.DrainError` | api/v1/lib/encoding/types.go:61 | the drain error is nil exactly when the reader ended with io.EOF; otherwise it is the reader's own error |
| `Io.ByteReader.ReadAll` | api/v1/lib/encoding/types.go:61 | draining yields every byte the reader still had and leaves it with none |
| `Io.ByteWriter.Write` | api/v1/lib/encoding/types.go:80 | the endpoint takes a prefix of the buffer of the reported length, and the call is logged |
| `Encoding.Reported` | api/v1/lib/encoding/types.go:66-70 | the reported error is the drain error when there was one; it is io.EOF exactly when the drain was clean |
| `Encoding.Reads` | api/v1/lib/encoding/types.go:62-72 | n consecutive reads give n answers; it is built from `Answer`, the result of one call (types.go:64-70), and `Next`, the state after `b = nil` (types.go:65) |
| `Encoding.ReadsSnoc` | api/v1/lib/encoding/types.go:63-65 | each further read answers from the initial state only before the first read, and from the drained state after it |
| `Encoding.ReadsAt` | api/v1/lib/encoding/types.go:61-70 | the k-th read returns the buffered frame for k = 0 and the nil frame after that; every read returns the same non-nil error |
| `Encoding.SpentSessionDeliversNothing` | api/v1/lib/encoding/types.go:63-65 | once the buffer is nil, no number of reads hands over a byte |
| `Encoding.DeliveredOnce` | api/v1/lib/encoding/types.go:63-65 | over any positive number of reads, the frames together are exactly the drained bytes, delivered once |
| `Encoding.BufferedSession.constructor` | api/v1/lib/encoding/types.go:61-62 | a new session holds the drained bytes and drain error and has answered nothing |
| `Encoding.BufferedSession.ReadFrame` | api/v1/lib/encoding/types.go:62-72 | returns the old buffer and sets it to nil; returns the drain error or io.EOF; the answers so far together hand over exactly the drained bytes |
| `Encoding.NilRead` | api/v1/lib/encoding/types.go:49-55 | the nil reader answers like a cleanly drained session whose buffer is already nil |
| `Encoding.NilReaderIsSpentSession` | api/v1/lib/encoding/types.go:49-55 | every read of the nil reader returns the nil frame and io.EOF, and it never hands over a byte |
| `Encoding.FrameReader.ReadFrame` | api/v1/lib/encoding/types.go:49-72 | a SourceNil reader returns (nil, io.EOF); a SourceReader reader returns its buffer, drops it and returns the captured error, or io.EOF when the drain was clean |
| `Encoding.Source.Open` | api/v1/lib/encoding/types.go:49-73 | SourceNil gives the nil reader; SourceReader drains its reader at each invocation into a fresh session holding what was left |
| `Encoding.TwoSessions` | api/v1/lib/encoding/types.go:59-73 | two sessions of one SourceReader: the first delivers all the data once, the second delivers an empty frame, both are then nil, both report the reader's end condition |
| `Encoding.CheckWrite` | api/v1/lib/encoding/types.go:81-84 | success exactly when the endpoint took the whole frame without error; its error is passed on unchanged; otherwise io.ErrShortWrite |
| `Encoding.FrameWriter.WriteFrame` | api/v1/lib/encoding/types.go:79-85 | exactly one Write of the whole frame; result per CheckWrite; on success the whole frame reached the endpoint |
| `Encoding.Sink.Open` | api/v1/lib/encoding/types.go:78-79 | invoking a SinkWriter Sink gives a frame writer bound to the same endpoint |
| `Encoding.WriteTwoFrames` | api/v1/lib/encoding/types.go:77-87 | two successful frame writes reach the endpoint in call order, with nothing lost or added; a successful first write puts the whole first frame first; whatever the first write did, the endpoint holds a prefix of the first frame followed by a prefix of the second |
| `Encoding.MediaType.ContentType` | api/v1/lib/encoding/types.go:15 | the content type is the media type's own string and converts back to it |
| `Encoding.String` | api/v1/lib/encoding/types.go:90-95 | a nil codec gives "", any other gives its name |
| `Encoding.Codec.constructor` | api/v1/lib/encoding/types.go:22-27 | a codec holds the given name, media type and builders |
| `Encoding.EncoderFunc.Encode` | api/v1/lib/encoding/types.go:129 | Encode is the wrapped function applied to the message |
| `Encoding.DecoderFunc.Decode` | api/v1/lib/encoding/types.go:126 | Decode is the wrapped function applied to the message |
| `Encoding.SourceFactoryFunc.NewSource` | api/v1/lib/encoding/types.go:40 | NewSource is the wrapped function applied to the reader |
| `Encoding.SinkFactoryFunc.NewSink` | api/v1/lib/encoding/types.go:42 | NewSink is the wrapped function applied to the writer |

## Left out

- Marshaling behind `Marshaler` and `Unmarshaler` (types.go:97-107) is left out. It is protobuf and JSON library code. Messages are opaque type parameters.
- Encoding.EncoderFunc.Encode and Encoding.DecoderFunc.Decode: the wrapped functions are pure Dafny functions. Any effects they have, such as writing a frame or filling in the message, are not modelled.
- The `framing` package (`Reader`, `Writer`, `ReaderFunc`, `WriterFunc`) is not part of this model. Its two interfaces are modelled only as the readers and writers this file builds.
- `ioutil.ReadAll` and `io.Writer.Write` are not modelled internally. Read chunking is not modelled: draining takes everything at once. The writer is nondeterministic apart from taking a prefix of each buffer.
- The compile-time interface assertions (types.go:44-47, 131-134) have no runtime behaviour.
- `cmd/example-scheduler/app/state.go` is not part of this model. It is application wiring: network listeners, HTTP clients, resource builders with floating-point scalars, backoff and metrics.
- Io.ByteReader: a reader's bytes are fixed when it is made, and it reports the same end condition to every drain. A Go pipe or socket can deliver new bytes to a later invocation of the Source, or return a different or temporary error on its next read. `Encoding.Source.Open` does not rely on this, but `Encoding.TwoSessions` does, when it says the second session delivers an empty frame and both report the reader's end condition.
- Encoding.TwoSessions: see the `Io.ByteReader` line above; with a reader that can receive more data, the second session would hold whatever arrived in between.
- Nil arguments are ruled out by Dafny's non-null types, so the Go panics they cause are not modelled: `SourceReader(nil)` panics when the Source is invoked (types.go:61), `SinkWriter(nil)` panics on `WriteFrame` (types.go:80), and a nil `EncoderFunc`, `DecoderFunc`, `SourceFactoryFunc` or `SinkFactoryFunc` panics when called (types.go:40, 42, 126, 129).
- Encoding.Codec.constructor: the model keeps a codec's fields constant. In Go the exported fields of `Codec` (types.go:22-27) can be reassigned, and `(*Codec).String` then returns the new `Name`; reassignment is not modelled.
- Concurrency is left out. One session is used by one caller at a time, and the code does no locking.
- Codec construction does no validation. A Go struct literal accepts any name, including the empty one. The constructor follows the code.
- After a failed drain, later reads return the drain error again, not io.EOF. This is what the code at types.go:61-70 does, so the model follows the code. A clean drain gives io.EOF on every call.
