/** pkg/web/response_writer_wrapper.go: a response writer that records the last status code
    passed to WriteHeader and adds up the byte counts of its writes, for the access log. The
    optional interfaces of the wrapped writer (Flusher, Hijacker, Pusher, ReaderFrom) are
    flags; taking over the connection and server push themselves are not modelled, only
    whether the call is delegated or answered with the package's error. */
module Web {
  import opened Base
  import opened Http

  /** The texts of ErrHijackNotImplemented and ErrPushNotImplemented. */
  const ErrHijackNotImplemented: string := "hijack not implemented"
  const ErrPushNotImplemented: string := "push not implemented"

  class ResponseWriterWrapper {
    const inner: Response
    var statusCode: int
    var contentLength: int
    const hijacker: bool
    const pusher: bool

    /** NewResponseWriterWrapper: both counters start at zero. */
    constructor (w: Response, hijacker: bool, pusher: bool)
      ensures inner == w && statusCode == 0 && contentLength == 0
      ensures this.hijacker == hijacker && this.pusher == pusher
    {
      inner := w;
      statusCode := 0;
      contentLength := 0;
      this.hijacker := hijacker;
      this.pusher := pusher;
    }

    /** Unwrap: the writer that was wrapped. */
    function Unwrap(): (w: Response)
      ensures w == inner
    {
      inner
    }

    /** Flush: forwarded when the wrapped writer is a Flusher, nothing otherwise. */
    method Flush()
      requires inner.Valid()
      modifies inner
      ensures inner.Valid()
      ensures inner.flusher ==>
                inner.flushes == old(inner.flushes) + 1
                && inner.status == (if old(inner.status).None? then Some(200) else old(inner.status))
                && inner.sent == (if old(inner.status).None? then Some(old(inner.header)) else old(inner.sent))
      ensures !inner.flusher ==>
                inner.flushes == old(inner.flushes) && inner.status == old(inner.status)
                && inner.sent == old(inner.sent)
      ensures inner.header == old(inner.header) && inner.body == old(inner.body)
      ensures inner.writes == old(inner.writes)
    {
      if inner.flusher {
        inner.Flush();
      }
    }

    /** Hijack: the wrapped writer's error when it is a Hijacker (`delegated`), else
        ErrHijackNotImplemented. */
    method Hijack(delegated: Option<string>) returns (err: Option<string>)
      ensures hijacker ==> err == delegated
      ensures !hijacker ==> err == Some(ErrHijackNotImplemented)
    {
      if hijacker {
        return delegated;
      }
      return Some(ErrHijackNotImplemented);
    }

    /** Push: the wrapped writer's error when it is a Pusher (`delegated`), else
        ErrPushNotImplemented. */
    method Push(target: string, delegated: Option<string>) returns (err: Option<string>)
      ensures pusher ==> err == delegated
      ensures !pusher ==> err == Some(ErrPushNotImplemented)
    {
      if pusher {
        return delegated;
      }
      return Some(ErrPushNotImplemented);
    }

    /** ReadFrom: the data go to the wrapped writer, by its own ReadFrom or by io.Copy, and
        neither counter sees them. An empty source reaches EOF at once: nothing is written and
        no status is sent. */
    method ReadFrom(data: string) returns (n: nat, ok: bool)
      requires inner.Valid()
      modifies inner
      ensures inner.Valid()
      ensures ok == (data == [] || old(inner.Accepts())) && n == (if ok then |data| else 0)
      ensures inner.body == old(inner.body) + (if ok then data else [])
      ensures data == [] ==> inner.status == old(inner.status) && inner.sent == old(inner.sent)
      ensures data != [] ==> inner.status == (if old(inner.status).None? then Some(200) else old(inner.status))
      ensures inner.writes == old(inner.writes) + (if data == [] then 0 else 1)
      ensures inner.header == old(inner.header) && inner.flushes == old(inner.flushes)
      ensures statusCode == old(statusCode) && contentLength == old(contentLength)
    {
      if data == [] {
        return 0, true;
      }
      n, ok := inner.Write(data);
    }

    /** WriteHeader: the code is recorded, then forwarded. */
    method WriteHeader(code: int)
      requires inner.Valid()
      modifies this, inner
      ensures inner.Valid()
      ensures statusCode == code && contentLength == old(contentLength)
      ensures inner.status == (if old(inner.status).None? then Some(code) else old(inner.status))
      ensures inner.sent == (if old(inner.status).None? then Some(old(inner.header)) else old(inner.sent))
      ensures inner.header == old(inner.header) && inner.body == old(inner.body)
      ensures inner.flushes == old(inner.flushes) && inner.writes == old(inner.writes)
    {
      statusCode := code;
      inner.WriteHeader(code);
    }

    /** Write: forwarded, and the byte count the wrapped writer reports is added whether or
        not it failed. */
    method Write(b: string) returns (n: nat, ok: bool)
      requires inner.Valid()
      modifies this, inner
      ensures inner.Valid()
      ensures ok == old(inner.Accepts()) && n == (if ok then |b| else 0)
      ensures contentLength == old(contentLength) + n && statusCode == old(statusCode)
      ensures inner.body == old(inner.body) + (if ok then b else [])
      ensures inner.status == (if old(inner.status).None? then Some(200) else old(inner.status))
      ensures inner.header == old(inner.header) && inner.flushes == old(inner.flushes)
      ensures inner.writes == old(inner.writes) + 1
    {
      n, ok := inner.Write(b);
      contentLength := contentLength + n;
    }
  }
}
