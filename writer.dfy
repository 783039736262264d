/** writer.go: resolving the formatter, the format / error-response /
    minimal-error cascade, and assembling headers, status and body on the
    `http.ResponseWriter`. Logging is not modelled. */
module Writer {
  import opened Wrappers
  import opened Errors
  import opened Headers
  import opened Formatting
  import V = ValueResponses
  import P = Response
  import F = Factories
  import T = Transport
  import StrUtil

  /** The package-level `defaultBinaryFormatterFunc`. `produced` is what
      calling it yields: `None` when no function is registered or when it
      returns nil. */
  class BinaryRegistry {
    var produced: Option<Formatter>

    constructor()
      ensures produced == None
    {
      produced := None;
    }

    /** `SetDefaultBinaryFormatter`. */
    method SetDefaultBinaryFormatter(produces: Option<Formatter>)
      modifies this
      ensures produced == produces
    {
      produced := produces;
    }
  }

  /** The formatter `Write` uses: the response's own, else the factory's;
      a binary response whose formatter cannot format binary gets the
      registered binary formatter instead, when there is one. */
  function EffectiveFormatter(resp: V.DataResponse, factoryFormatter: Formatter, registered: Option<Formatter>): (f: Formatter)
  {
    var base := resp.formatter.GetOr(factoryFormatter);
    if V.IsBinary(resp) && !CanFormatBinary(base) && registered.Some? then registered.value else base
  }

  /** Which formatter wins, stated case by case. */
  lemma EffectiveFormatterChoice(resp: V.DataResponse, factoryFormatter: Formatter, registered: Option<Formatter>)
    ensures var f := EffectiveFormatter(resp, factoryFormatter, registered);
            && (!V.IsBinary(resp) ==> f == if resp.formatter.Some? then resp.formatter.value else factoryFormatter)
            && (resp.formatter == Some(Binary) ==> f == Binary)
            && (registered.None? ==> f == resp.formatter.GetOr(factoryFormatter))
            && (V.IsBinary(resp) && registered.Some? ==> CanFormatBinary(f) || f == registered.value)
            && (f == factoryFormatter || Some(f) == resp.formatter || Some(f) == registered)
  {
  }

  /** The content type `writeFormattedResponse` settles on: the response's
      own, else the formatter's, else none is set. */
  function TypedHeaders(merged: HeaderMap, respContentType: string, fr: Formatted): HeaderMap {
    if respContentType != "" then Replaced(merged, ContentType, respContentType)
    else if fr.contentType != "" then Replaced(merged, ContentType, fr.contentType)
    else merged
  }

  /** The disposition and length headers. */
  function SizedHeaders(typed: HeaderMap, isBinary: bool, filename: string, fr: Formatted): HeaderMap {
    if isBinary then
      var named := if filename != "" then Replaced(typed, ContentDisposition, P.AttachmentDisposition(filename)) else typed;
      if fr.streamSize > 0 then Replaced(named, ContentLength, StrUtil.Itoa(fr.streamSize)) else named
    else if |fr.body| > 0 then Replaced(typed, ContentLength, StrUtil.Itoa(|fr.body|))
    else typed
  }

  /** The header `writeFormattedResponse` leaves on the writer. */
  function ResponseHeaders(dst: HeaderMap, respEntries: HeaderMap, isBinary: bool, filename: string, fr: Formatted): HeaderMap {
    SizedHeaders(TypedHeaders(Merge(dst, respEntries), GetOf(respEntries, ContentType), fr), isBinary, filename, fr)
  }

  /** The response's headers are added to whatever the writer held; the
      response's own content type beats the formatter's and neither leaves
      it as merged; a binary response names its file iff it has a name and
      states its length iff the size is positive; a buffered body states
      its length iff it is non-empty. Every stated length reads back as
      the number it came from. */
  lemma {:induction false} ResponseHeadersProperties(dst: HeaderMap, respEntries: HeaderMap, isBinary: bool,
                                                     filename: string, fr: Formatted)
    ensures var h := ResponseHeaders(dst, respEntries, isBinary, filename, fr);
            && (forall k :: k != ContentType && k != ContentDisposition && k != ContentLength ==>
                  ValuesOf(h, k) == ValuesOf(dst, k) + ValuesOf(respEntries, k))
            && ValuesOf(h, ContentType) ==
                 (if GetOf(respEntries, ContentType) != "" then [GetOf(respEntries, ContentType)]
                  else if fr.contentType != "" then [fr.contentType]
                  else ValuesOf(dst, ContentType) + ValuesOf(respEntries, ContentType))
            && ValuesOf(h, ContentDisposition) ==
                 (if isBinary && filename != "" then [P.AttachmentDisposition(filename)]
                  else ValuesOf(dst, ContentDisposition) + ValuesOf(respEntries, ContentDisposition))
            && ValuesOf(h, ContentLength) ==
                 (if isBinary && fr.streamSize > 0 then [StrUtil.Itoa(fr.streamSize)]
                  else if !isBinary && |fr.body| > 0 then [StrUtil.Itoa(|fr.body|)]
                  else ValuesOf(dst, ContentLength) + ValuesOf(respEntries, ContentLength))
            && (isBinary && fr.streamSize > 0 ==> StrUtil.ParseInt(GetOf(h, ContentLength)) == Some(fr.streamSize))
            && (!isBinary && |fr.body| > 0 ==> StrUtil.ParseInt(GetOf(h, ContentLength)) == Some(|fr.body|))
  {
    StrUtil.ItoaRoundTrip(fr.streamSize);
    StrUtil.ItoaRoundTrip(|fr.body|);
  }

  /** The bytes the writer takes from a formatted response's body: at most
      `streamSize` of a stream when that is positive, the whole stream
      otherwise, or the buffered body. */
  function Delivered(s: T.Sink, fr: Formatted): T.Bytes {
    if fr.stream.Some? then
      if fr.streamSize > 0 then s.Taken(T.Sink.Limited(fr.stream.value, fr.streamSize))
      else s.Taken(fr.stream.value)
    else if |fr.body| > 0 then s.Taken(fr.body)
    else []
  }

  /** The error writing the body reports. A buffered body's short count is
      not checked. */
  function BodyError(s: T.Sink, fr: Formatted): Option<Error> {
    if fr.stream.Some? then
      if fr.streamSize > 0 then s.CopyNError(fr.stream.value, fr.streamSize)
      else s.CopyError(fr.stream.value)
    else if |fr.body| > 0 then s.failure
    else None
  }

  /** On a healthy connection: a positive size copies exactly that many
      bytes and a shorter stream is an error; otherwise the stream is copied
      to its end, or the buffered body written, without error. */
  lemma {:induction false} HealthyBody(s: T.Sink, fr: Formatted)
    requires s.failure.None? && !s.halves
    ensures fr.stream.Some? && fr.streamSize > 0 ==>
              (BodyError(s, fr).None? <==> |fr.stream.value| >= fr.streamSize)
              && (BodyError(s, fr).None? ==> Delivered(s, fr) == fr.stream.value[..fr.streamSize])
              && (BodyError(s, fr).Some? ==> Delivered(s, fr) == fr.stream.value && BodyError(s, fr) == Some(T.ErrEOF))
    ensures fr.stream.Some? && fr.streamSize <= 0 ==> BodyError(s, fr).None? && Delivered(s, fr) == fr.stream.value
    ensures fr.stream.None? ==> BodyError(s, fr).None? && Delivered(s, fr) == fr.body
  {
    if fr.stream.Some? && fr.streamSize > 0 {
      var p := T.Sink.Limited(fr.stream.value, fr.streamSize);
      assert s.Taken(p) == p;
      if |fr.stream.value| >= fr.streamSize {
        assert p == fr.stream.value[..fr.streamSize];
      }
    }
  }

  /** The content-type step of `writeFormattedResponse`. */
  method SetContentType(w: T.Sink, respContentType: string, fr: Formatted)
    modifies w.header
    ensures w.header.entries == TypedHeaders(old(w.header.entries), respContentType, fr)
  {
    if respContentType != "" {
      w.header.Set(ContentType, respContentType);
    } else if fr.contentType != "" {
      w.header.Set(ContentType, fr.contentType);
    }
  }

  /** The disposition and length step of `writeFormattedResponse`. */
  method SetSizeHeaders(w: T.Sink, isBinary: bool, filename: string, fr: Formatted)
    modifies w.header
    ensures w.header.entries == SizedHeaders(old(w.header.entries), isBinary, filename, fr)
  {
    if isBinary {
      if filename != "" {
        w.header.Set(ContentDisposition, P.AttachmentDisposition(filename));
      }
      if fr.streamSize > 0 {
        w.header.Set(ContentLength, StrUtil.Itoa(fr.streamSize));
      }
    } else if |fr.body| > 0 {
      w.header.Set(ContentLength, StrUtil.Itoa(|fr.body|));
    }
  }

  /** The body step of `writeFormattedResponse`, after the status. */
  method WriteBody(w: T.Sink, fr: Formatted) returns (err: Option<Error>)
    modifies w
    ensures w.body == old(w.body) + Delivered(w, fr)
    ensures err == BodyError(w, fr)
    ensures w.calls == old(w.calls)
    ensures old(w.committed).Some? ==> w.committed == old(w.committed) && w.sent == old(w.sent)
  {
    if fr.stream.Some? {
      if fr.streamSize > 0 {
        err := w.CopyN(fr.stream.value, fr.streamSize);
        return;
      }
      err := w.Copy(fr.stream.value);
      return;
    }
    if |fr.body| > 0 {
      var _, e := w.Write(fr.body);
      return e;
    }
    return None;
  }

  /** `writeFormattedResponse`: headers first, then one `WriteHeader`, then
      the body. */
  method WriteFormattedResponse(w: T.Sink, resp: V.DataResponse, fr: Formatted) returns (err: Option<Error>)
    requires resp.header != w.header
    modifies w, w.header
    ensures w.header.entries == ResponseHeaders(old(w.header.entries), V.EntriesOf(resp.header), V.IsBinary(resp), resp.filename, fr)
    ensures w.calls == old(w.calls) + [resp.statusCode]
    ensures old(w.committed).None? ==> w.committed == Some(resp.statusCode) && w.sent == w.header.entries
    ensures old(w.committed).Some? ==> w.committed == old(w.committed) && w.sent == old(w.sent)
    ensures w.body == old(w.body) + Delivered(w, fr)
    ensures err == BodyError(w, fr)
  {
    w.header.AddAll(V.EntriesOf(resp.header));
    SetContentType(w, V.ContentType(resp), fr);
    SetSizeHeaders(w, V.IsBinary(resp), resp.filename, fr);
    w.WriteHeader(resp.statusCode);
    err := WriteBody(w, fr);
  }

  const MinimalMessage := "Internal Server Error"
  const MinimalWriteFailed := "failed to write minimal error response"
  const PartialWrite := "partial write"
  /** The format verbs are never filled in: no arguments are passed. */
  const MinimalPartialWrite := PartialWrite + " of minimal error: expected %d bytes, wrote %d"

  /** What `writeMinimalError` reports for a connection. */
  function MinimalErrorOutcome(w: T.Sink): (err: Option<Error>)
    ensures err.None? <==> w.Taken(MinimalMessage) == MinimalMessage
    ensures err.Some? ==> err.value.Coded? && err.value.code == 0
  {
    if w.failure.Some? then Some(WrapError(0, w.failure.value, MinimalWriteFailed))
    else if |w.Taken(MinimalMessage)| != |MinimalMessage| then Some(NewError(0, MinimalPartialWrite))
    else None
  }

  /** `writeMinimalError`: plain-text content type, status 500, then the
      fixed message. */
  method WriteMinimalError(w: T.Sink) returns (err: Option<Error>)
    modifies w, w.header
    ensures w.header.entries == Replaced(old(w.header.entries), ContentType, ContentTypePlainUtf8)
    ensures w.calls == old(w.calls) + [500]
    ensures old(w.committed).None? ==> w.committed == Some(500) && w.sent == w.header.entries
    ensures old(w.committed).Some? ==> w.committed == old(w.committed) && w.sent == old(w.sent)
    ensures w.body == old(w.body) + w.Taken(MinimalMessage)
    ensures err == MinimalErrorOutcome(w)
  {
    w.header.Set(ContentType, ContentTypePlainUtf8);
    w.WriteHeader(500);
    var n, e := w.Write(MinimalMessage);
    if e.Some? {
      return Some(WrapError(0, e.value, MinimalWriteFailed));
    }
    if n != |MinimalMessage| {
      return Some(NewError(0, MinimalPartialWrite));
    }
    return None;
  }

  /** A connection that takes half of each write makes the minimal error
      report a partial write, and one that fails reports the failed write. */
  lemma MinimalErrorFaults(w: T.Sink)
    ensures w.failure.None? && w.halves ==>
              MinimalErrorOutcome(w).Some? && StrUtil.Contains(Text(MinimalErrorOutcome(w).value), PartialWrite)
    ensures w.failure.Some? ==> MinimalErrorOutcome(w) == Some(Coded(0, MinimalWriteFailed, ""))
  {
    if w.failure.None? && w.halves {
      assert MinimalPartialWrite[..|PartialWrite|] == PartialWrite;
      StrUtil.ContainsIffOccurs(MinimalPartialWrite, PartialWrite);
    }
  }

  /** The factory's internal-error response as the value type the writer
      takes. A response built by the factory carries no stream. */
  function AsValue(r: P.DataResponse): (v: V.DataResponse)
    reads r
    ensures v.statusCode == r.statusCode && v.data == r.data && v.header == r.header && v.formatter == r.formatter
    ensures v.stream == None
  {
    V.DataResponse(r.statusCode, r.data, r.header, None, r.isBinary, r.filename, 0, r.formatter)
  }

  /** What a text formatter sees of the internal-error response for `err`. */
  function ErrorProbe(factory: F.Factory, err: Error): V.DataResponse
    reads factory
  {
    V.DataResponse(500, factory.BuildError(500, F.InternalErrorTitle, F.InternalErrorDetails(factory.verbosity, err)),
                   null, None, false, "", 0, None)
  }

  const FormatErrorFailed := "failed to format error response"
  const WriteErrorFailed := "failed to write formatted error response"

  /** A text formatter reads nothing of a response but its binary flag and
      its data. */
  lemma FormatTextSeesDataOnly(f: Formatter, a: V.DataResponse, b: V.DataResponse, codecs: Codecs)
    requires !f.Binary? && V.IsBinary(a) == V.IsBinary(b) && a.data == b.data
    ensures V.FormatText(f, a, codecs) == V.FormatText(f, b, codecs)
  {
  }

  /** The error a failed recovery step is reported as. */
  function RecoveryError(formatted: Result<Formatted, Error>, bodyError: Option<Error>, originalErr: Error): Error {
    if formatted.Err? then NewError(500, FormatErrorFailed)
    else if bodyError.Some? then NewError(500, WriteErrorFailed)
    else originalErr
  }

  /** The second half of `writeErrorResponse`: write the formatted error
      response, or the minimal error when formatting or writing it failed. */
  method WriteRecovery(w: T.Sink, resp: V.DataResponse, formatted: Result<Formatted, Error>, originalErr: Error)
    returns (err: Option<Error>)
    requires resp.header != w.header
    modifies w, w.header
    ensures err == Some(RecoveryError(formatted, if formatted.Ok? then BodyError(w, formatted.value) else None, originalErr))
    ensures formatted.Err? ==> w.calls == old(w.calls) + [500]
    ensures formatted.Ok? ==> w.calls == old(w.calls) + [resp.statusCode] + (if BodyError(w, formatted.value).Some? then [500] else [])
    ensures formatted.Err? ==>
              w.header.entries == Replaced(old(w.header.entries), ContentType, ContentTypePlainUtf8)
              && w.body == old(w.body) + w.Taken(MinimalMessage)
  {
    if formatted.Err? {
      var _ := WriteMinimalError(w);
      return Some(WrapError(500, formatted.error, FormatErrorFailed));
    }
    var writeErr := WriteFormattedResponse(w, resp, formatted.value);
    if writeErr.Some? {
      var _ := WriteMinimalError(w);
      return Some(WrapError(500, writeErr.value, WriteErrorFailed));
    }
    return Some(originalErr);
  }

  /** `writeErrorResponse`: the factory's internal-error response through the
      same formatter, then the minimal error if that fails. The result is
      never nil: the original error after a recovery, a wrapped 500
      otherwise. A text formatter's outcome is known in advance; it sees the
      internal-error envelope the factory builds. */
  method WriteErrorResponse(w: T.Sink, factory: F.Factory, fmt: Formatter, originalErr: Error, codecs: Codecs)
    returns (err: Option<Error>)
    requires factory.Valid()
    requires fmt.Binary? ==> factory.formatter != Some(Binary)
    modifies w, w.header
    ensures err.Some?
    ensures err.value == originalErr
            || err.value == NewError(500, FormatErrorFailed) || err.value == NewError(500, WriteErrorFailed)
    ensures !fmt.Binary? ==>
              var fr := V.FormatText(fmt, ErrorProbe(factory, originalErr), codecs);
              && err == Some(RecoveryError(fr, if fr.Ok? then BodyError(w, fr.value) else None, originalErr))
              && w.calls == old(w.calls) + (if fr.Ok? && BodyError(w, fr.value).Some? then [500, 500] else [500])
    ensures !fmt.Binary? && V.FormatText(fmt, ErrorProbe(factory, originalErr), codecs).Err? ==>
              w.header.entries == Replaced(old(w.header.entries), ContentType, ContentTypePlainUtf8)
              && w.body == old(w.body) + w.Taken(MinimalMessage)
  {
    var er := factory.InternalError(originalErr);
    var resp := AsValue(er);
    ghost var probe := ErrorProbe(factory, originalErr);
    ghost var fr: Result<Formatted, Error> := if fmt.Binary? then Err(FormatterMustBeSet) else V.FormatText(fmt, probe, codecs);
    if !fmt.Binary? {
      FormatTextSeesDataOnly(fmt, resp, probe, codecs);
    }
    var formatted := V.Format(fmt, resp, codecs);
    assert !fmt.Binary? ==> formatted == fr;
    ghost var calls := w.calls;
    err := WriteRecovery(w, resp, formatted, originalErr);
    if !fmt.Binary? {
      assert fr == V.FormatText(fmt, ErrorProbe(factory, originalErr), codecs);
      if fr.Ok? && BodyError(w, fr.value).Some? {
        T.CallsSnoc(calls, 500, 500);
      }
    }
  }

  /** `Write` comes back. The binary formatter asks the response for its
      body, which asks the response's own formatter; when that fails, the
      binary formatter is asked to format the factory's internal-error
      response, whose body asks the factory's formatter. Either formatter
      being the binary one recurses without end (see README). */
  predicate Terminates(resp: V.DataResponse, factory: F.Factory, registry: BinaryRegistry, codecs: Codecs)
    reads factory, registry, V.FormatterReads(resp)
    requires factory.Valid()
  {
    EffectiveFormatter(resp, factory.formatter.value, registry.produced).Binary? ==>
      V.BodyTerminates(resp) && (V.BinaryResult(resp, "", codecs).Err? ==> factory.formatter != Some(Binary))
  }

  /** `Write`. */
  method Write(w: T.Sink, resp: V.DataResponse, factory: F.Factory, registry: BinaryRegistry, codecs: Codecs)
    returns (err: Option<Error>)
    requires factory.Valid() && Terminates(resp, factory, registry, codecs)
    requires resp.header != w.header
    modifies w, w.header, resp.header
    ensures var fmt := EffectiveFormatter(resp, factory.formatter.value, registry.produced);
            !fmt.Binary? ==>
              var fr := old(V.FormatText(fmt, resp, codecs));
              && (fr.Ok? ==>
                    err == BodyError(w, fr.value)
                    && w.header.entries == ResponseHeaders(old(w.header.entries), old(V.EntriesOf(resp.header)),
                                                           V.IsBinary(resp), resp.filename, fr.value)
                    && w.calls == old(w.calls) + [resp.statusCode]
                    && w.body == old(w.body) + Delivered(w, fr.value))
              && (fr.Err? ==> err.Some? && |w.calls| > |old(w.calls)| && w.calls[|old(w.calls)|] == 500)
    ensures var fmt := EffectiveFormatter(resp, factory.formatter.value, registry.produced);
            fmt.Binary? ==>
              var fr := old(V.BinaryResult(resp, V.ContentType(resp), codecs));
              && (fr.Ok? ==>
                    err == BodyError(w, fr.value)
                    && w.header.entries == ResponseHeaders(old(w.header.entries), V.EntriesOf(resp.header),
                                                           V.IsBinary(resp), resp.filename, fr.value)
                    && w.calls == old(w.calls) + [resp.statusCode]
                    && w.body == old(w.body) + Delivered(w, fr.value))
              && (fr.Err? ==> err.Some?)
    ensures var fmt := EffectiveFormatter(resp, factory.formatter.value, registry.produced);
            !fmt.Binary? || resp.stream.Some? || resp.formatter.None? ==> V.EntriesOf(resp.header) == old(V.EntriesOf(resp.header))
  {
    var fmt := resp.formatter.GetOr(factory.formatter.value);
    if V.IsBinary(resp) && !CanFormatBinary(fmt) {
      if registry.produced.Some? {
        fmt := registry.produced.value;
      }
    }
    assert fmt == EffectiveFormatter(resp, factory.formatter.value, registry.produced);
    if fmt.Binary? {
      V.BinaryFailure(resp, V.ContentType(resp), codecs);
    }
    var formatted := V.Format(fmt, resp, codecs);
    err := Deliver(w, resp, factory, fmt, formatted, codecs);
  }

  /** The second half of `Write`: the formatted response, or the error
      response when formatting failed. */
  method Deliver(w: T.Sink, resp: V.DataResponse, factory: F.Factory, fmt: Formatter,
                 formatted: Result<Formatted, Error>, codecs: Codecs)
    returns (err: Option<Error>)
    requires factory.Valid() && resp.header != w.header
    requires fmt.Binary? && formatted.Err? ==> factory.formatter != Some(Binary)
    modifies w, w.header
    ensures formatted.Ok? ==>
              err == BodyError(w, formatted.value)
              && w.header.entries == ResponseHeaders(old(w.header.entries), V.EntriesOf(resp.header),
                                                     V.IsBinary(resp), resp.filename, formatted.value)
              && w.calls == old(w.calls) + [resp.statusCode]
              && w.body == old(w.body) + Delivered(w, formatted.value)
    ensures formatted.Err? ==> err.Some?
    ensures formatted.Err? && !fmt.Binary? ==> |w.calls| > |old(w.calls)| && w.calls[|old(w.calls)|] == 500
  {
    if formatted.Err? {
      err := WriteErrorResponse(w, factory, fmt, formatted.error, codecs);
      return;
    }
    err := WriteFormattedResponse(w, resp, formatted.value);
  }
}
