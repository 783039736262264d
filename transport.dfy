/** The `http.ResponseWriter` the library writes to, and the `io.Copy`,
    `io.CopyN` and `http.Error` helpers it calls. The writer follows
    net/http's server: the first `WriteHeader` (or the first `Write`)
    commits the status and a snapshot of the header; later `WriteHeader`
    calls are recorded but change nothing on the wire. Two fault knobs stand
    in for a broken connection: every `Write` fails, or every `Write` takes
    only half of its bytes. */
module Transport {
  import opened Wrappers
  import opened Errors
  import opened Headers

  type Bytes = string

  /** `io.ErrShortWrite` and `io.EOF`. */
  const ErrShortWrite := External("short write")
  const ErrEOF := External("EOF")

  class Sink {
    /** `w.Header()`: the same map on every call. */
    const header: Header
    /** Every `WriteHeader` argument, in call order. */
    var calls: seq<int>
    /** The status on the wire, once committed. */
    var committed: Option<int>
    /** The header as it was when the status was committed. */
    var sent: HeaderMap
    var body: Bytes
    /** When set, every `Write` fails with this error and writes nothing. */
    const failure: Option<Error>
    /** When set, every `Write` takes only the first half of its bytes. */
    const halves: bool

    constructor(failure: Option<Error>, halves: bool)
      ensures this.failure == failure && this.halves == halves
      ensures fresh(header) && header.entries == map[]
      ensures calls == [] && committed == None && sent == map[] && body == []
    {
      header := new Header();
      calls := [];
      committed := None;
      sent := map[];
      body := [];
      this.failure := failure;
      this.halves := halves;
    }

    /** The bytes one `Write(p)` takes. */
    function Taken(p: Bytes): (t: Bytes)
      ensures |t| <= |p| && t == p[..|t|]
      ensures failure.None? && !halves ==> t == p
    {
      if failure.Some? then [] else if halves then p[..|p| / 2] else p
    }

    /** `WriteHeader`: commits only the first time. */
    method WriteHeader(status: int)
      modifies this
      ensures calls == old(calls) + [status]
      ensures old(committed).None? ==> committed == Some(status) && sent == header.entries
      ensures old(committed).Some? ==> committed == old(committed) && sent == old(sent)
      ensures body == old(body)
    {
      calls := calls + [status];
      if committed.None? {
        committed := Some(status);
        sent := header.entries;
      }
    }

    /** `Write`: commits 200 when nothing is committed yet, then takes what
        the connection accepts. */
    method Write(p: Bytes) returns (n: nat, err: Option<Error>)
      modifies this
      ensures n == |Taken(p)| && body == old(body) + Taken(p)
      ensures err == failure
      ensures calls == old(calls)
      ensures old(committed).None? ==> committed == Some(200) && sent == header.entries
      ensures old(committed).Some? ==> committed == old(committed) && sent == old(sent)
    {
      if committed.None? {
        committed := Some(200);
        sent := header.entries;
      }
      var t := Taken(p);
      body := body + t;
      n := |t|;
      err := failure;
    }

    /** What `io.Copy` reports after handing `p` to one `Write`. */
    function CopyError(p: Bytes): (err: Option<Error>)
      ensures failure.None? && !halves ==> err == None
      ensures err.None? ==> Taken(p) == p
    {
      if p == [] then None
      else if failure.Some? then failure
      else if |Taken(p)| < |p| then Some(ErrShortWrite)
      else None
    }

    /** `io.Copy(w, src)`: a reader yields its bytes and then EOF, and the
        whole of it is handed to one `Write` (see README). An empty reader
        causes no `Write`. */
    method Copy(src: Bytes) returns (err: Option<Error>)
      modifies this
      ensures body == old(body) + Taken(src)
      ensures err == CopyError(src)
      ensures calls == old(calls)
      ensures src == [] ==> committed == old(committed) && sent == old(sent)
      ensures old(committed).Some? ==> committed == old(committed) && sent == old(sent)
    {
      if src == [] {
        return None;
      }
      var n, e := Write(src);
      if e.Some? {
        return e;
      }
      if n < |src| {
        return Some(ErrShortWrite);
      }
      return None;
    }

    /** The bytes `io.CopyN(w, src, n)` reads: at most `n`. */
    static function Limited(src: Bytes, n: int): (p: Bytes)
      requires n > 0
      ensures |p| <= n && |p| <= |src| && p == src[..|p|]
      ensures |p| == n || p == src
    {
      if |src| <= n then src else src[..n]
    }

    /** What `io.CopyN` reports: the copy's error, else EOF when the reader
        ran out before `n` bytes. */
    function CopyNError(src: Bytes, n: int): (err: Option<Error>)
      requires n > 0
      ensures err.None? <==> |src| >= n && Taken(Limited(src, n)) == Limited(src, n)
    {
      var p := Limited(src, n);
      if CopyError(p).Some? then CopyError(p)
      else if |p| < n then Some(ErrEOF)
      else None
    }

    /** `io.CopyN(w, src, n)` for `n > 0`. */
    method CopyN(src: Bytes, n: int) returns (err: Option<Error>)
      requires n > 0
      modifies this
      ensures body == old(body) + Taken(Limited(src, n))
      ensures err == CopyNError(src, n)
      ensures calls == old(calls)
      ensures old(committed).Some? ==> committed == old(committed) && sent == old(sent)
    {
      var p := Limited(src, n);
      err := Copy(p);
      if err.None? && |p| < n {
        err := Some(ErrEOF);
      }
    }

    /** `http.Error(w, message, code)`: plain text, no sniffing, the status,
        then the message and a newline. Its write error is dropped. */
    method Error(message: string, code: int)
      modifies this, header
      ensures header.entries == Replaced(Replaced(Removed(old(header.entries), ContentLength),
                                                  ContentType, ContentTypePlainUtf8), XContentTypeOptions, NoSniff)
      ensures calls == old(calls) + [code]
      ensures old(committed).None? ==> committed == Some(code) && sent == header.entries
      ensures old(committed).Some? ==> committed == old(committed) && sent == old(sent)
      ensures body == old(body) + Taken(message + "\n")
    {
      header.Del(ContentLength);
      header.Set(ContentType, ContentTypePlainUtf8);
      header.Set(XContentTypeOptions, NoSniff);
      WriteHeader(code);
      var _, _ := Write(message + "\n");
    }
  }

  /** A connection that takes half of every write turns any copy of two
      bytes or more into `io.ErrShortWrite`, whose text holds no "partial
      write": the error writer_test.go's partial-write case looks for comes
      only from the minimal-error path. */
  lemma HalvingCopyIsShortWrite(s: Sink, src: Bytes, n: int)
    requires s.failure.None? && s.halves && n > 1 && |src| >= 2
    ensures s.CopyNError(src, n) == Some(ErrShortWrite)
    ensures s.CopyError(src) == Some(ErrShortWrite)
    ensures Text(ErrShortWrite) == "short write"
  {
  }

  /** Two statuses recorded one after the other. */
  lemma CallsSnoc(calls: seq<int>, a: int, b: int)
    ensures calls + [a] + [b] == calls + [a, b]
  {
  }
}
