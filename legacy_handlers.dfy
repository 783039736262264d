/** handler/data_response.go and handler/handler.go: two adapters from the
    library's first API generation that write a response through an
    encoder and fall back to an internal-error response and then to a
    plain-text 500. That generation's factory, response and encoder are
    not part of this model; they appear here as the values and calls the
    adapters use. */
module LegacyHandlers {
  import opened Wrappers
  import opened Errors
  import opened Headers
  import Conv
  import T = Transport
  import Status = HttpStatus

  /** What the adapters read of the old `*response.DataResponse`. */
  datatype LegacyResponse = LegacyResponse(statusCode: int, header: HeaderMap, data: Conv.Data)

  const InternalServerErrorText := "Internal Server Error"

  /** The old factory as `DataResponseAPIFunc` sees it: the encoder's
      `Marshal` (given the writer's header and the data) and
      `InternalServerErrorResponse`. */
  datatype ApiFactory = ApiFactory(
    marshal: (HeaderMap, Conv.Data) -> Result<Conv.Bytes, Error>,
    internalServerErrorResponse: Error -> LegacyResponse)

  /** A factory that also implements `WriteResponseErrorCallback`,
      reduced to the errors it has been handed. */
  class WriteErrorCallback {
    var reported: seq<Error>

    constructor()
      ensures reported == []
    {
      reported := [];
    }

    method WriteResponseError(err: Error)
      modifies this
      ensures reported == old(reported) + [err]
    {
      reported := reported + [err];
    }
  }

  const WriteResponseContext := "write response"

  /** The handler `DataResponseAPIFunc` returns, given the wrapped
      handler's response and the callback (`null` when the factory does not
      implement it; the log line of that case is not modelled). The
      response's headers are merged into the writer's before anything is
      committed; nil data commits the status alone; a failed marshal
      switches to the internal-error response, and a second failure ends in
      a plain-text 500. A failed body write is reported to the callback. */
  method DataResponseApiFunc(f: ApiFactory, resp: LegacyResponse, w: T.Sink, wrec: WriteErrorCallback?)
    requires w.committed.None?
    modifies w, w.header, wrec
    ensures var merged := Merge(old(w.header.entries), resp.header);
            var first := f.marshal(merged, resp.data);
            var internal := if first.Err? then f.internalServerErrorResponse(first.error) else resp;
            var second := f.marshal(merged, internal.data);
            var bytes := if first.Ok? then first.value else if second.Ok? then second.value else [];
            && (resp.data.Nil? ==>
                  w.header.entries == merged && w.calls == old(w.calls) + [resp.statusCode]
                  && w.sent == merged && w.body == old(w.body)
                  && (wrec != null ==> wrec.reported == old(wrec.reported)))
            && (!resp.data.Nil? && (first.Ok? || second.Ok?) ==>
                  w.header.entries == merged && w.calls == old(w.calls) + [internal.statusCode]
                  && w.sent == merged && w.body == old(w.body) + w.Taken(bytes)
                  && (wrec != null ==>
                        wrec.reported == old(wrec.reported)
                                         + (if w.failure.Some? then [Wrap(w.failure.value, WriteResponseContext)] else [])))
            && (!resp.data.Nil? && first.Err? && second.Err? ==>
                  w.calls == old(w.calls) + [Status.InternalServerError]
                  && w.body == old(w.body) + w.Taken(InternalServerErrorText + "\n")
                  && GetOf(w.sent, ContentType) == ContentTypePlainUtf8
                  && (wrec != null ==> wrec.reported == old(wrec.reported)))
  {
    w.header.AddAll(resp.header);
    var statusCode := resp.statusCode;
    if resp.data.Nil? {
      w.WriteHeader(statusCode);
      return;
    }
    var encoded := f.marshal(w.header.entries, resp.data);
    if encoded.Err? {
      var internal := f.internalServerErrorResponse(encoded.error);
      encoded := f.marshal(w.header.entries, internal.data);
      if encoded.Err? {
        w.Error(InternalServerErrorText, Status.InternalServerError);
        return;
      }
      statusCode := internal.statusCode;
    }
    w.WriteHeader(statusCode);
    var n, err := w.Write(encoded.value);
    if err.Some? && wrec != null {
      wrec.WriteResponseError(Wrap(err.value, WriteResponseContext));
    }
  }

  /** The old `FormatWriter`: every `Write(w, status, data)` it was asked
      to do, and which of them fail. What a write puts on the wire is not
      modelled. */
  class FormatWriter {
    var writes: seq<(int, Conv.Data)>
    const fails: (int, Conv.Data) -> Option<Error>

    constructor(fails: (int, Conv.Data) -> Option<Error>)
      ensures this.fails == fails && writes == []
    {
      this.fails := fails;
      writes := [];
    }

    method Write(status: int, data: Conv.Data) returns (err: Option<Error>)
      modifies this
      ensures writes == old(writes) + [(status, data)] && err == fails(status, data)
    {
      writes := writes + [(status, data)];
      err := fails(status, data);
    }
  }

  /** The handler `NewHTTPHandlerFunc` returns: headers merged, then one
      write; after a failure the internal-error data is written with the
      ORIGINAL status, and a plain-text 500 follows whether or not that
      retry succeeded. */
  method NewHttpHandlerFunc(internalServerError: Error -> LegacyResponse, writer: FormatWriter,
                            resp: LegacyResponse, w: T.Sink)
    requires w.committed.None?
    modifies w, w.header, writer
    ensures var merged := Merge(old(w.header.entries), resp.header);
            var first := writer.fails(resp.statusCode, resp.data);
            && (first.None? ==>
                  writer.writes == old(writer.writes) + [(resp.statusCode, resp.data)]
                  && w.header.entries == merged && w.calls == old(w.calls) && w.body == old(w.body))
            && (first.Some? ==>
                  writer.writes == old(writer.writes)
                                   + [(resp.statusCode, resp.data),
                                      (resp.statusCode, internalServerError(first.value).data)]
                  && w.calls == old(w.calls) + [Status.InternalServerError]
                  && w.committed == Some(Status.InternalServerError)
                  && w.body == old(w.body) + w.Taken(InternalServerErrorText + "\n"))
  {
    w.header.AddAll(resp.header);
    var err := writer.Write(resp.statusCode, resp.data);
    if err.Some? {
      var internal := internalServerError(err.value);
      var retry := writer.Write(resp.statusCode, internal.data);
      if retry.Some? {
        w.Error(InternalServerErrorText, Status.InternalServerError);
        return;
      }
      w.Error(InternalServerErrorText, Status.InternalServerError);
      return;
    }
  }
}
