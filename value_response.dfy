/** response.go: the value-receiver `DataResponse`. Builders return modified
    copies, but the `http.Header` map is a reference shared by every copy, so
    the header operations change it in place. */
module ValueResponses {
  import opened Wrappers
  import opened Conv
  import opened Errors
  import opened Headers
  import opened Formatting

  /** `stream` is the attached reader's remaining bytes, `None` for nil. */
  datatype DataResponse = DataResponse(
    statusCode: int,
    data: Data,
    header: Header?,
    stream: Option<Bytes>,
    isBinary: bool,
    filename: string,
    size: int,
    formatter: Option<Formatter>)

  /** The header's contents; a nil header reads as empty. */
  function EntriesOf(h: Header?): HeaderMap
    reads h
  {
    if h == null then map[] else h.entries
  }

  /** `IsBinary`: flagged binary and a stream attached. */
  predicate IsBinary(r: DataResponse) {
    r.isBinary && r.stream.Some?
  }

  /** `HasData`: a payload or a stream. */
  predicate HasData(r: DataResponse) {
    !r.data.Nil? || r.stream.Some?
  }

  /** `HeaderLine` (`Get` on a nil map is ""). */
  function HeaderLine(r: DataResponse, key: string): string
    reads r.header
  {
    GetOf(EntriesOf(r.header), key)
  }

  function HeaderValues(r: DataResponse, key: string): seq<string>
    reads r.header
  {
    ValuesOf(EntriesOf(r.header), key)
  }

  predicate HasHeader(r: DataResponse, key: string)
    reads r.header
  {
    HeaderLine(r, key) != ""
  }

  function ContentType(r: DataResponse): string
    reads r.header
  {
    HeaderLine(r, Headers.ContentType)
  }

  /** `Formatter()`: the formatter, or `ErrFormatterMustBeSet`. */
  function GetFormatter(r: DataResponse): (res: Result<Formatter, Error>)
    ensures res.Ok? <==> r.formatter.Some?
    ensures res.Ok? ==> res.value == r.formatter.value
    ensures res.Err? ==> res.error == FormatterMustBeSet
  {
    if r.formatter.Some? then Ok(r.formatter.value) else Err(FormatterMustBeSet)
  }

  /** What `WithHeader` leaves in a header map: it replaces the values when
      the key already has a non-empty first value and appends otherwise. */
  function SetOrAdd(h: HeaderMap, key: string, value: string): HeaderMap {
    if GetOf(h, key) != "" then Replaced(h, key, value) else Appended(h, key, value)
  }

  /** Unlike `Header.Add`, repeating `WithHeader` with the same non-empty
      value leaves a single value, unless the key's first value was already
      an empty string; in that case every call appends, and the key keeps
      reading as "". */
  lemma {:induction false} SetOrAddProperties(h: HeaderMap, key: string, value: string)
    ensures var vs := ValuesOf(h, key);
            GetOf(SetOrAdd(h, key, value), key) == (if vs != [] && vs[0] == "" then "" else value)
    ensures var vs := ValuesOf(h, key);
            vs == [] || vs[0] != "" ==> ValuesOf(SetOrAdd(h, key, value), key) == [value]
    ensures var vs := ValuesOf(h, key);
            vs != [] && vs[0] == "" ==> ValuesOf(SetOrAdd(h, key, value), key) == vs + [value]
    ensures var vs := ValuesOf(h, key);
            value != "" && (vs == [] || vs[0] != "") ==>
              SetOrAdd(SetOrAdd(h, key, value), key, value) == SetOrAdd(h, key, value)
  {
    var vs := ValuesOf(h, key);
    var once := SetOrAdd(h, key, value);
    if value != "" && (vs == [] || vs[0] != "") {
      assert ValuesOf(once, key) == [value];
      assert GetOf(once, key) == value;
      assert key in once && once[key] == [value];
      assert SetOrAdd(once, key, value) == once[key := [value]];
      assert once[key := [value]] == once;
    }
  }

  /** `WithHeader`: on a nil header it allocates one for the copy first. */
  method WithHeader(r: DataResponse, key: string, value: string) returns (r2: DataResponse)
    modifies r.header
    ensures r2.header != null && r2 == r.(header := r2.header)
    ensures r.header != null ==> r2.header == r.header
    ensures r.header == null ==> fresh(r2.header)
    ensures r2.header.entries == SetOrAdd(old(EntriesOf(r.header)), key, value)
  {
    r2 := r;
    if r2.header == null {
      var h := new Header();
      r2 := r2.(header := h);
    }
    if HasHeader(r2, key) {
      r2.header.Set(key, value);
    } else {
      r2.header.Add(key, value);
    }
  }

  /** `WithoutHeader`: nothing to do on a nil header. */
  method WithoutHeader(r: DataResponse, key: string) returns (r2: DataResponse)
    modifies r.header
    ensures r2 == r
    ensures r.header != null ==> r.header.entries == Removed(old(r.header.entries), key)
  {
    r2 := r;
    if r.header == null {
      return;
    }
    r.header.Del(key);
  }

  /** `WithHeaders`: allocates a nil header, then adds every value. */
  method WithHeaders(r: DataResponse, headers: HeaderMap) returns (r2: DataResponse)
    modifies r.header
    ensures r2.header != null && r2 == r.(header := r2.header)
    ensures r.header != null ==> r2.header == r.header
    ensures r.header == null ==> fresh(r2.header)
    ensures r2.header.entries == Merge(old(EntriesOf(r.header)), headers)
  {
    r2 := r;
    if r2.header == null {
      var h := new Header();
      r2 := r2.(header := h);
    }
    r2.header.AddAll(headers);
  }

  method WithContentType(r: DataResponse, contentType: string) returns (r2: DataResponse)
    modifies r.header
    ensures r2.header != null && r2 == r.(header := r2.header)
    ensures r.header != null ==> r2.header == r.header
    ensures r.header == null ==> fresh(r2.header)
    ensures r2.header.entries == SetOrAdd(old(EntriesOf(r.header)), Headers.ContentType, contentType)
  {
    r2 := WithHeader(r, Headers.ContentType, contentType);
  }

  /** `WithData`, `WithStream` and `WithFormatter` change one field of the
      copy; the header reference stays shared with the original. */
  function WithData(r: DataResponse, data: Data): (r2: DataResponse)
    ensures r2.data == data && r2.header == r.header && r2.(data := r.data) == r
  {
    r.(data := data)
  }

  function WithStream(r: DataResponse, stream: Bytes, size: int): (r2: DataResponse)
    ensures r2.stream == Some(stream) && r2.size == size
    ensures r2.header == r.header && r2.(stream := r.stream, size := r.size) == r
    ensures HasData(r2) && (r.isBinary ==> IsBinary(r2))
  {
    r.(stream := Some(stream), size := size)
  }

  function WithFormatter(r: DataResponse, f: Formatter): (r2: DataResponse)
    ensures GetFormatter(r2) == Ok(f)
    ensures r2.header == r.header && r2.(formatter := r.formatter) == r
  {
    r.(formatter := Some(f))
  }

  /** `Body()` can return: a value response whose formatter is the binary
      formatter and which has no stream sends `Binary.Format` back into
      `Body()` without end. */
  predicate BodyTerminates(r: DataResponse) {
    r.stream.Some? || r.formatter != Some(Binary)
  }

  /** The text formatters' and the fallback's `Format`, which read only the
      response's binary flag and data. */
  function FormatText(f: Formatter, r: DataResponse, codecs: Codecs): (res: Result<Formatted, Error>)
    requires !f.Binary?
    reads if f.Html? then {f.html} else {}
  {
    match f
    case Json(indent) => JsonFormat(indent, IsBinary(r), r.data, codecs)
    case Xml(indent) => XmlFormat(indent, IsBinary(r), r.data, codecs)
    case Html(h) => HtmlFormat(h.template, IsBinary(r), r.data, codecs)
    case Noop => Ok(Empty)
  }

  /** `Body()`: an attached stream as is; otherwise the formatter's output,
      after setting the formatter's content type on the (shared) header;
      otherwise the data's bytes. */
  method Body(r: DataResponse, codecs: Codecs) returns (res: Result<Payload, Error>)
    requires BodyTerminates(r)
    modifies r.header
    ensures r.stream.Some? ==> res == Ok(Payload(r.size, r.stream)) && EntriesOf(r.header) == old(EntriesOf(r.header))
    ensures r.stream.None? && r.formatter.Some? ==>
              var fr := old(FormatText(r.formatter.value, r, codecs));
              && (fr.Err? ==> res == Err(fr.error) && EntriesOf(r.header) == old(EntriesOf(r.header)))
              && (fr.Ok? ==> res == Ok(Payload(fr.value.streamSize, fr.value.stream))
                             && (r.header != null ==>
                                   r.header.entries == SetOrAdd(old(r.header.entries), Headers.ContentType, fr.value.contentType)))
    ensures r.stream.None? && r.formatter.None? ==>
              EntriesOf(r.header) == old(EntriesOf(r.header))
              && match DataToString(r.data)
                 case Err(e) => res == Err(e)
                 case Ok(b) => res == Ok(Payload(|b|, Some(b)))
  {
    if r.stream.Some? {
      return Ok(Payload(r.size, r.stream));
    }
    if r.formatter.Some? {
      var fr := FormatText(r.formatter.value, r, codecs);
      if fr.Err? {
        return Err(fr.error);
      }
      var _ := WithContentType(r, fr.value.contentType);
      return Ok(Payload(fr.value.streamSize, fr.value.stream));
    }
    var bytes := DataToString(r.data);
    if bytes.Err? {
      return Err(bytes.error);
    }
    res := Ok(Payload(|bytes.value|, Some(bytes.value)));
  }

  /** The objects the response's own formatter reads. */
  function FormatterReads(r: DataResponse): set<object> {
    if r.formatter.Some? && r.formatter.value.Html? then {r.formatter.value.html} else {}
  }

  /** What `Binary.Format` returns for a response whose `Body()` returns,
      given the content type the response held before the call: `Body()`'s
      stream, formatter output or data bytes, under the response's content
      type or the one its file extension names. */
  function BinaryResult(r: DataResponse, contentType: string, codecs: Codecs): Result<Formatted, Error>
    requires BodyTerminates(r)
    reads FormatterReads(r)
  {
    var ct := BinaryContentType(contentType, r.filename);
    if r.stream.Some? then Ok(Formatted(ct, r.stream, r.size, []))
    else if r.formatter.Some? then
      match FormatText(r.formatter.value, r, codecs)
      case Err(e) => Err(e)
      case Ok(fr) => Ok(Formatted(ct, fr.stream, fr.streamSize, []))
    else
      match DataToString(r.data)
      case Err(e) => Err(e)
      case Ok(b) => Ok(Formatted(ct, Some(b), |b|, []))
  }

  /** `Binary.Format` fails exactly when there is no stream and the
      response's formatter, or the conversion of its data, fails; the
      content type plays no part. */
  lemma BinaryFailure(r: DataResponse, contentType: string, codecs: Codecs)
    requires BodyTerminates(r)
    ensures BinaryResult(r, contentType, codecs).Err? <==>
              r.stream.None?
              && (r.formatter.Some? ==> FormatText(r.formatter.value, r, codecs).Err?)
              && (r.formatter.None? ==> DataToString(r.data).Err?)
    ensures BinaryResult(r, contentType, codecs).Err? <==> BinaryResult(r, "", codecs).Err?
  {
  }

  /** `f.Format(r)` for each formatter; the binary formatter reads the
      response's content type and file name first and then its `Body()`. */
  method Format(f: Formatter, r: DataResponse, codecs: Codecs) returns (res: Result<Formatted, Error>)
    requires f.Binary? ==> BodyTerminates(r)
    modifies r.header
    ensures !f.Binary? ==> res == old(FormatText(f, r, codecs)) && EntriesOf(r.header) == old(EntriesOf(r.header))
    ensures f.Binary? ==> res == old(BinaryResult(r, ContentType(r), codecs))
    ensures f.Binary? && (r.stream.Some? || r.formatter.None? || res.Err?) ==> EntriesOf(r.header) == old(EntriesOf(r.header))
    ensures f.Binary? && r.stream.None? && r.formatter.Some? && res.Ok? && r.header != null ==>
              r.header.entries == SetOrAdd(old(r.header.entries), Headers.ContentType, old(FormatText(r.formatter.value, r, codecs)).value.contentType)
  {
    if !f.Binary? {
      res := FormatText(f, r, codecs);
      return;
    }
    var ct := ContentType(r);
    var body := Body(r, codecs);
    res := BinaryFormat(ct, r.filename, body);
  }
}
