/** The byte endpoints the encoding layer is given: an `io.Reader` drained by
    `ioutil.ReadAll`, and an `io.Writer`. Only what the encoding layer relies
    on is modelled: a reader is the bytes it still has to give plus the
    condition it ends with, and a writer is an endpoint that takes some prefix
    of each buffer and may fail. */
module Io {

  type byte = bv8

  /** Go's nil-able values: `None` is nil. */
  datatype Option<+T> = None | Some(value: T)

  /** The error values the encoding layer produces or passes on. */
  datatype Error =
    | EOF                      // io.EOF: the normal end of a stream
    | ErrShortWrite            // io.ErrShortWrite
    | Failed(reason: string)   // any other error an endpoint reports

  /** What `ioutil.ReadAll` reports for a reader that ended with `terminal`:
      a clean end (io.EOF) becomes a nil error, any other failure is kept. */
  function DrainError(terminal: Error): (e: Option<Error>)
    ensures e.None? <==> terminal == EOF
    ensures e.Some? ==> e.value == terminal && e.value != EOF
  {
    if terminal == EOF then None else Some(terminal)
  }

  /** An `io.Reader`: the bytes it has not yet given out, then `terminal`,
      which it reports to every read once those bytes are gone. */
  class ByteReader {
    var pending: seq<byte>
    const terminal: Error

    constructor (data: seq<byte>, terminal: Error)
      ensures pending == data && this.terminal == terminal
    {
      pending := data;
      this.terminal := terminal;
    }

    /** `ioutil.ReadAll(r)`: everything that is left, and the drain error.
        Afterwards the reader has nothing more to give. */
    method ReadAll() returns (data: seq<byte>, err: Option<Error>)
      modifies this
      ensures data == old(pending) && pending == []
      ensures err == DrainError(terminal)
    {
      data := pending;
      pending := [];
      err := DrainError(terminal);
    }
  }

  /** One call of `Write` as the endpoint saw it: the buffer it was given,
      the count it reported and the error it returned. */
  datatype WriteCall = WriteCall(p: seq<byte>, n: nat, err: Option<Error>)

  /** An `io.Writer` whose behaviour is not known: each `Write` takes some
      prefix of the buffer and may report any error. `accepted` is what has
      reached the endpoint, `calls` the log of every `Write`. */
  class ByteWriter {
    var accepted: seq<byte>
    ghost var calls: seq<WriteCall>

    constructor ()
      ensures accepted == [] && calls == []
    {
      accepted := [];
      calls := [];
    }

    method Write(p: seq<byte>) returns (n: nat, err: Option<Error>)
      modifies this
      ensures n <= |p|
      ensures accepted == old(accepted) + p[..n]
      ensures calls == old(calls) + [WriteCall(p, n, err)]
    {
      n :| n <= |p|;
      err :| true;
      accepted := accepted + p[..n];
      calls := calls + [WriteCall(p, n, err)];
    }
  }
}
