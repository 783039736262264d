/** The response recorders that sit between a handler and the connection:
    handler.go's guarded `responseRecorder`, which forwards at most one
    `WriteHeader`, with `WrapHandler`'s fallback cascade; and the unguarded
    recorder that server.go and http/server.go both define, which forwards
    every call and remembers the latest status. */
module Recorders {
  import opened Wrappers
  import opened Errors
  import opened Headers
  import T = Transport

  /** handler.go's `responseRecorder`. `base` is the number of `WriteHeader`
      calls the connection had seen when the recorder was made. */
  class GuardedRecorder {
    const w: T.Sink
    var statusCode: int
    var written: bool
    ghost const base: nat

    /** At most one status has been forwarded, and it is the recorded one. */
    ghost predicate Forwarded()
      reads this, w
    {
      && |w.calls| == base + (if written then 1 else 0)
      && (written ==> w.calls[base] == statusCode)
    }

    /** ... and nothing is recorded before the commit. */
    ghost predicate Valid()
      reads this, w
    {
      Forwarded() && (!written ==> statusCode == 0)
    }

    constructor(w: T.Sink)
      ensures this.w == w && base == |w.calls| && !written && statusCode == 0 && Valid()
    {
      this.w := w;
      statusCode := 0;
      written := false;
      base := |w.calls|;
    }

    /** `WriteHeader`: forwarded only the first time. */
    method WriteHeader(code: int)
      requires Forwarded()
      modifies this, w
      ensures Valid() && written
      ensures old(written) ==> statusCode == old(statusCode) && w.calls == old(w.calls) && unchanged(w)
      ensures !old(written) ==> statusCode == code && w.calls == old(w.calls) + [code] && w.body == old(w.body)
    {
      if written {
        return;
      }
      statusCode := code;
      w.WriteHeader(code);
      written := true;
    }

    /** `Write`: commits 200 first when nothing is committed, then forwards. */
    method Write(b: T.Bytes) returns (n: nat, err: Option<Error>)
      requires Valid()
      modifies this, w
      ensures Valid() && written
      ensures old(written) ==> statusCode == old(statusCode) && w.calls == old(w.calls)
      ensures !old(written) ==> statusCode == 200 && w.calls == old(w.calls) + [200]
      ensures w.body == old(w.body) + w.Taken(b) && n == |w.Taken(b)| && err == w.failure
    {
      if !written {
        if statusCode == 0 {
          statusCode := 200;
        }
        WriteHeader(statusCode);
      }
      n, err := w.Write(b);
    }
  }

  /** One recorder call made by a write attempt. */
  datatype Step = WriteStatus(code: int) | WriteBytes(bytes: T.Bytes)

  /** What the two-argument `Write(rw, resp)` that `WrapHandler` calls does:
      the recorder calls it makes and the error it returns. */
  datatype Attempt = Attempt(steps: seq<Step>, result: Option<Error>)

  /** The status a non-empty run of steps commits through a guarded
      recorder: its first status, or 200 when it starts with bytes. */
  function Commit(steps: seq<Step>): seq<int> {
    if steps == [] then []
    else if steps[0].WriteStatus? then [steps[0].code]
    else [200]
  }

  /** The bytes a run of steps gets onto the connection. */
  function Sent(w: T.Sink, steps: seq<Step>): T.Bytes
    decreases |steps|
  {
    if steps == [] then []
    else
      var last := steps[|steps| - 1];
      Sent(w, steps[..|steps| - 1]) + (if last.WriteBytes? then w.Taken(last.bytes) else [])
  }

  /** Replays an attempt's calls on a recorder nothing has committed yet. */
  method Perform(rr: GuardedRecorder, steps: seq<Step>)
    requires rr.Valid() && !rr.written
    modifies rr, rr.w
    ensures rr.Valid()
    ensures rr.written <==> steps != []
    ensures rr.w.calls == old(rr.w.calls) + Commit(steps)
    ensures rr.w.body == old(rr.w.body) + Sent(rr.w, steps)
  {
    var i := 0;
    while i < |steps|
      invariant 0 <= i <= |steps| && rr.Valid()
      invariant rr.written <==> i > 0
      invariant rr.w.calls == old(rr.w.calls) + Commit(steps[..i])
      invariant rr.w.body == old(rr.w.body) + Sent(rr.w, steps[..i])
    {
      assert steps[..i + 1][..i] == steps[..i];
      if steps[i].WriteStatus? {
        rr.WriteHeader(steps[i].code);
      } else {
        var _, _ := rr.Write(steps[i].bytes);
      }
      i := i + 1;
    }
    assert steps[..i] == steps;
  }

  /** The statuses `WrapHandler` puts on the connection. */
  function CascadeCalls(first: Attempt, second: Attempt): seq<int> {
    if first.steps != [] || first.result.None? then Commit(first.steps)
    else if second.steps != [] || second.result.None? then Commit(second.steps)
    else [500]
  }

  const FallbackMessage := "Internal Server Error"

  /** `WrapHandler`'s body for one request: write the handler's response; on
      failure with nothing committed write the internal-error response; if
      that fails too with nothing committed, write a plain-text 500 straight
      to the connection. An error after a commit is only logged. */
  method WrapHandler(w: T.Sink, first: Attempt, second: Attempt)
    modifies w, w.header
    ensures w.calls == old(w.calls) + CascadeCalls(first, second)
    ensures |w.calls| <= |old(w.calls)| + 1
    ensures first.steps != [] || first.result.None? ==>
              w.body == old(w.body) + Sent(w, first.steps)
    ensures first.steps == [] && first.result.Some? && (second.steps != [] || second.result.None?) ==>
              w.body == old(w.body) + Sent(w, second.steps)
    ensures first.steps == [] && first.result.Some? && second.steps == [] && second.result.Some? ==>
              w.body == old(w.body) + w.Taken(FallbackMessage)
              && ValuesOf(w.header.entries, ContentType) == [ContentTypePlainUtf8]
  {
    var rr := new GuardedRecorder(w);
    Perform(rr, first.steps);
    if first.result.Some? && !rr.written {
      Perform(rr, second.steps);
      if second.result.Some? && !rr.written {
        WriteFallback(w);
      }
    }
  }

  /** `http.Error(w, "Internal Server Error", 500)` on the bare connection. */
  method WriteFallback(w: T.Sink)
    modifies w, w.header
    ensures w.calls == old(w.calls) + [500]
    ensures w.body == old(w.body) + w.Taken(FallbackMessage)
    ensures ValuesOf(w.header.entries, ContentType) == [ContentTypePlainUtf8]
  {
    w.header.Set(ContentType, ContentTypePlainUtf8);
    w.WriteHeader(500);
    var _, _ := w.Write(FallbackMessage);
  }

  /** The recorder of server.go and http/server.go. `base` is the number of
      `WriteHeader` calls the connection had seen when it was made. */
  class Recorder {
    const w: T.Sink
    var statusCode: int
    var written: bool
    ghost const base: nat

    /** The status is the latest one forwarded, 0 before any; once a status
        has gone out the recorder says it was written. */
    ghost predicate Valid()
      reads this, w
    {
      && base <= |w.calls|
      && statusCode == (if |w.calls| == base then 0 else w.calls[|w.calls| - 1])
      && (|w.calls| > base ==> written)
    }

    /** `NewResponseRecorder`. */
    constructor(w: T.Sink)
      ensures this.w == w && base == |w.calls| && !written && statusCode == 0 && Valid()
    {
      this.w := w;
      statusCode := 0;
      written := false;
      base := |w.calls|;
    }

    /** `WriteHeader`: records and forwards every call. */
    method WriteHeader(code: int)
      requires Valid()
      modifies this, w
      ensures Valid() && written && statusCode == code
      ensures w.calls == old(w.calls) + [code] && w.body == old(w.body)
    {
      statusCode := code;
      written := true;
      w.WriteHeader(code);
    }

    /** `Write`: marks the recorder written and forwards the bytes; the
        status it remembers is unchanged. */
    method Write(b: T.Bytes) returns (n: nat, err: Option<Error>)
      requires Valid()
      modifies this, w
      ensures Valid() && written && statusCode == old(statusCode)
      ensures w.calls == old(w.calls)
      ensures w.body == old(w.body) + w.Taken(b) && n == |w.Taken(b)| && err == w.failure
    {
      written := true;
      n, err := w.Write(b);
    }
  }
}
