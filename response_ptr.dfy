/** response/response.go: the pointer-receiver `DataResponse`. Every builder
    changes the receiver in place and returns the same pointer. */
module Response {
  import opened Wrappers
  import opened Conv
  import opened Errors
  import opened Headers
  import opened Formatting

  /** An `io.Closer` handed to `WithFile`: counts its `Close` calls and
      answers each with the same outcome. */
  class Closer {
    var closeCalls: nat
    const failure: Option<Error>

    constructor(failure: Option<Error>)
      ensures closeCalls == 0 && this.failure == failure
    {
      closeCalls := 0;
      this.failure := failure;
    }

    method Close() returns (err: Option<Error>)
      modifies this
      ensures closeCalls == old(closeCalls) + 1 && err == failure
    {
      closeCalls := closeCalls + 1;
      err := failure;
    }
  }

  function EntriesOf(h: Header?): HeaderMap
    reads h
  {
    if h == null then map[] else h.entries
  }

  class DataResponse {
    var statusCode: int
    var data: Data
    var header: Header?
    var formatter: Option<Formatter>
    var formatted: Formatted
    var hasFormatted: bool
    var isBinary: bool
    var filename: string
    var closer: Closer?

    /** The header's contents; a nil header reads as empty. */
    function Entries(): HeaderMap
      reads this, header
    {
      EntriesOf(header)
    }

    /** `NewDataResponse`: an empty header is allocated. */
    constructor(statusCode: int, data: Data)
      ensures this.statusCode == statusCode && this.data == data
      ensures header != null && fresh(header) && Entries() == map[]
      ensures formatter == None && !hasFormatted && !isBinary && filename == "" && closer == null
    {
      this.statusCode := statusCode;
      this.data := data;
      header := new Header();
      formatter := None;
      formatted := Empty;
      hasFormatted := false;
      isBinary := false;
      filename := "";
      closer := null;
    }

    method WithStatusCode(statusCode: int) returns (self: DataResponse)
      modifies this
      ensures self == this && this.statusCode == statusCode
      ensures data == old(data) && header == old(header) && formatter == old(formatter)
      ensures isBinary == old(isBinary) && hasFormatted == old(hasFormatted) && formatted == old(formatted)
      ensures filename == old(filename) && closer == old(closer)
    {
      this.statusCode := statusCode;
      self := this;
    }

    method WithData(data: Data) returns (self: DataResponse)
      modifies this
      ensures self == this && this.data == data
      ensures statusCode == old(statusCode) && header == old(header) && formatter == old(formatter)
      ensures isBinary == old(isBinary) && hasFormatted == old(hasFormatted) && formatted == old(formatted)
      ensures filename == old(filename) && closer == old(closer)
    {
      this.data := data;
      self := this;
    }

    /** `WithFormatted`: a pre-formatted body, preferred by `Body()`. */
    method WithFormatted(formatted: Formatted) returns (self: DataResponse)
      modifies this
      ensures self == this && this.formatted == formatted && hasFormatted
      ensures statusCode == old(statusCode) && data == old(data) && header == old(header)
      ensures formatter == old(formatter) && isBinary == old(isBinary)
      ensures filename == old(filename) && closer == old(closer)
    {
      this.formatted := formatted;
      hasFormatted := true;
      self := this;
    }

    /** `Body()`, given what the stored formatter's `Format` returns on this
        response: the pre-formatted body first, then the formatter, then the
        data's own bytes. */
    function Body(formatterOutput: Result<Formatted, Error>): (res: Result<Formatted, Error>)
      reads this
      ensures hasFormatted ==> res == Ok(formatted)
      ensures !hasFormatted && formatter.Some? ==> res == formatterOutput
      ensures !hasFormatted && formatter.None? ==>
                (res.Ok? <==> data.Str? || data.ByteSlice?)
                && (res.Err? ==> res.error == DataIsNotStringable)
                && (res.Ok? ==> res.value.stream == Some(DataToString(data).value)
                                && res.value.streamSize == |DataToString(data).value|)
    {
      if hasFormatted then Ok(formatted)
      else if formatter.Some? then formatterOutput
      else match DataToString(data)
        case Err(e) => Err(e)
        case Ok(bytes) => Ok(Formatted("", Some(bytes), |bytes|, []))
    }

    /** `HeaderValues`: an empty or nil map gives no values. */
    function HeaderValues(key: string): (vs: seq<string>)
      reads this, header
      ensures vs == ValuesOf(Entries(), key)
      ensures Entries() == map[] ==> vs == []
    {
      if |Entries()| == 0 then [] else ValuesOf(Entries(), key)
    }

    /** `HeaderLine`: the first value, "" on an empty or nil map. */
    function HeaderLine(key: string): (v: string)
      reads this, header
      ensures v == GetOf(Entries(), key)
      ensures Entries() == map[] ==> v == ""
      ensures v != "" ==> ValuesOf(Entries(), key) != [] && ValuesOf(Entries(), key)[0] == v
    {
      if |Entries()| == 0 then "" else GetOf(Entries(), key)
    }

    function ContentType(): string
      reads this, header
    {
      HeaderLine(Headers.ContentType)
    }

    /** `HasHeader`: the key's first value is non-empty. */
    predicate HasHeader(key: string)
      reads this, header
      ensures HasHeader(key) <==> ValuesOf(Entries(), key) != [] && ValuesOf(Entries(), key)[0] != ""
    {
      if |Entries()| == 0 then false else GetOf(Entries(), key) != ""
    }

    /** `Formatter()`: the stored formatter or `ErrFormatterMustBeSet`. */
    function GetFormatter(): (res: Result<Formatter, Error>)
      reads this
      ensures res.Ok? <==> formatter.Some?
      ensures res.Ok? ==> res.value == formatter.value
      ensures res.Err? ==> res.error == FormatterMustBeSet
    {
      if formatter.Some? then Ok(formatter.value) else Err(FormatterMustBeSet)
    }

    /** `WithHeader`: appends, allocating a nil header first. */
    method WithHeader(key: string, value: string) returns (self: DataResponse)
      modifies this, header
      ensures self == this && header != null
      ensures old(header) != null ==> header == old(header)
      ensures old(header) == null ==> fresh(header)
      ensures Entries() == Appended(old(Entries()), key, value)
      ensures statusCode == old(statusCode) && data == old(data) && formatter == old(formatter)
      ensures isBinary == old(isBinary) && hasFormatted == old(hasFormatted) && formatted == old(formatted)
      ensures filename == old(filename) && closer == old(closer)
    {
      if header == null {
        header := new Header();
      }
      header.Add(key, value);
      self := this;
    }

    /** `SetHeader`: replaces every value of the key, allocating a nil header
        first. */
    method SetHeader(key: string, value: string) returns (self: DataResponse)
      modifies this, header
      ensures self == this && header != null
      ensures old(header) != null ==> header == old(header)
      ensures old(header) == null ==> fresh(header)
      ensures Entries() == Replaced(old(Entries()), key, value)
      ensures statusCode == old(statusCode) && data == old(data) && formatter == old(formatter)
      ensures isBinary == old(isBinary) && hasFormatted == old(hasFormatted) && formatted == old(formatted)
      ensures filename == old(filename) && closer == old(closer)
    {
      if header == null {
        header := new Header();
      }
      header.Set(key, value);
      self := this;
    }

    /** `WithoutHeader`: removes the key; an empty map is left alone. */
    method WithoutHeader(key: string) returns (self: DataResponse)
      modifies header
      ensures self == this
      ensures Entries() == Removed(old(Entries()), key)
    {
      self := this;
      if |Entries()| == 0 {
        return;
      }
      header.Del(key);
    }

    /** `WithHeaders`: adds every value of every key. A nil header is
        accepted only when nothing is added: Go panics on an assignment into
        a nil map. */
    method WithHeaders(headers: HeaderMap) returns (self: DataResponse)
      requires header != null || KeysWithValues(headers) == {}
      modifies header
      ensures self == this
      ensures Entries() == Merge(old(Entries()), headers)
    {
      self := this;
      if header == null {
        assert Merge(map[], headers).Keys == {};
        return;
      }
      header.AddAll(headers);
    }

    method WithContentType(contentType: string) returns (self: DataResponse)
      modifies this, header
      ensures self == this && header != null
      ensures old(header) != null ==> header == old(header)
      ensures old(header) == null ==> fresh(header)
      ensures Entries() == Replaced(old(Entries()), Headers.ContentType, contentType)
      ensures ContentType() == contentType
      ensures statusCode == old(statusCode) && data == old(data) && formatter == old(formatter)
      ensures isBinary == old(isBinary) && hasFormatted == old(hasFormatted) && formatted == old(formatted)
      ensures filename == old(filename) && closer == old(closer)
    {
      self := SetHeader(Headers.ContentType, contentType);
    }

    method WithCacheControl(value: string) returns (self: DataResponse)
      modifies this, header
      ensures self == this && header != null
      ensures old(header) == null ==> fresh(header)
      ensures old(header) != null ==> header == old(header)
      ensures Entries() == Appended(old(Entries()), CacheControl, value)
      ensures statusCode == old(statusCode) && data == old(data) && formatter == old(formatter)
      ensures isBinary == old(isBinary) && hasFormatted == old(hasFormatted) && formatted == old(formatted)
      ensures filename == old(filename) && closer == old(closer)
    {
      self := WithHeader(CacheControl, value);
    }

    /** `WithCORS`: the origin always; the method and header lists only when
        non-empty. */
    method WithCORS(origin: string, methods: string, headers: string) returns (self: DataResponse)
      modifies this, header
      ensures self == this && header != null
      ensures old(header) != null ==> header == old(header)
      ensures old(header) == null ==> fresh(header)
      ensures ValuesOf(Entries(), AccessControlAllowOrigin) == ValuesOf(old(Entries()), AccessControlAllowOrigin) + [origin]
      ensures ValuesOf(Entries(), AccessControlAllowMethods)
              == ValuesOf(old(Entries()), AccessControlAllowMethods) + (if methods == "" then [] else [methods])
      ensures ValuesOf(Entries(), AccessControlAllowHeaders)
              == ValuesOf(old(Entries()), AccessControlAllowHeaders) + (if headers == "" then [] else [headers])
      ensures forall k :: k != AccessControlAllowOrigin && k != AccessControlAllowMethods && k != AccessControlAllowHeaders
                ==> ValuesOf(Entries(), k) == ValuesOf(old(Entries()), k)
      ensures statusCode == old(statusCode) && data == old(data) && formatter == old(formatter)
      ensures isBinary == old(isBinary) && hasFormatted == old(hasFormatted) && formatted == old(formatted)
      ensures filename == old(filename) && closer == old(closer)
    {
      self := WithHeader(AccessControlAllowOrigin, origin);
      if |methods| > 0 {
        self := WithHeader(AccessControlAllowMethods, methods);
      }
      if |headers| > 0 {
        self := WithHeader(AccessControlAllowHeaders, headers);
      }
    }

    /** `WithSecurityHeaders`: exactly the three fixed headers are added. */
    method WithSecurityHeaders() returns (self: DataResponse)
      modifies this, header
      ensures self == this && header != null
      ensures old(header) != null ==> header == old(header)
      ensures old(header) == null ==> fresh(header)
      ensures ValuesOf(Entries(), XContentTypeOptions) == ValuesOf(old(Entries()), XContentTypeOptions) + [NoSniff]
      ensures ValuesOf(Entries(), XFrameOptions) == ValuesOf(old(Entries()), XFrameOptions) + [FrameOptionsDeny]
      ensures ValuesOf(Entries(), ReferrerPolicy) == ValuesOf(old(Entries()), ReferrerPolicy) + [StrictOriginWhenCrossOrigin]
      ensures forall k :: k != XContentTypeOptions && k != XFrameOptions && k != ReferrerPolicy
                ==> ValuesOf(Entries(), k) == ValuesOf(old(Entries()), k)
      ensures statusCode == old(statusCode) && data == old(data) && formatter == old(formatter)
      ensures isBinary == old(isBinary) && hasFormatted == old(hasFormatted) && formatted == old(formatted)
      ensures filename == old(filename) && closer == old(closer)
    {
      self := WithHeader(XContentTypeOptions, NoSniff);
      self := WithHeader(XFrameOptions, FrameOptionsDeny);
      self := WithHeader(ReferrerPolicy, StrictOriginWhenCrossOrigin);
    }

    /** `WithContentDisposition`: an attachment with the file name quoted
        (section 4 of RFC 6266). */
    method WithContentDisposition(filename: string) returns (self: DataResponse)
      modifies this, header
      ensures self == this && header != null
      ensures old(header) == null ==> fresh(header)
      ensures old(header) != null ==> header == old(header)
      ensures Entries() == Appended(old(Entries()), ContentDisposition, AttachmentDisposition(filename))
      ensures statusCode == old(statusCode) && data == old(data) && formatter == old(formatter)
      ensures isBinary == old(isBinary) && hasFormatted == old(hasFormatted) && formatted == old(formatted)
      ensures this.filename == old(this.filename) && closer == old(closer)
    {
      self := WithHeader(ContentDisposition, AttachmentDisposition(filename));
    }

    /** `WithFormatter`: stores the formatter and sets its content type as the
        one `Content-Type` value. */
    method WithFormatter(f: Formatter) returns (self: DataResponse)
      modifies this, header
      ensures self == this && header != null
      ensures old(header) != null ==> header == old(header)
      ensures old(header) == null ==> fresh(header)
      ensures formatter == Some(f) && GetFormatter() == Ok(f)
      ensures Entries() == Replaced(old(Entries()), Headers.ContentType, ContentTypeOf(f))
      ensures ContentType() == ContentTypeOf(f)
      ensures statusCode == old(statusCode) && data == old(data)
      ensures isBinary == old(isBinary) && hasFormatted == old(hasFormatted) && formatted == old(formatted)
      ensures filename == old(filename) && closer == old(closer)
    {
      formatter := Some(f);
      self := WithContentType(ContentTypeOf(f));
    }

    /** `WithFile`: marks the response binary and keeps the closer. */
    method WithFile(closer: Closer) returns (self: DataResponse)
      modifies this
      ensures self == this && isBinary && this.closer == closer
      ensures statusCode == old(statusCode) && data == old(data) && header == old(header)
      ensures formatter == old(formatter) && hasFormatted == old(hasFormatted) && formatted == old(formatted)
      ensures filename == old(filename)
    {
      isBinary := true;
      this.closer := closer;
      self := this;
    }

    /** `Close`: closes the stored closer if there is one. */
    method Close() returns (err: Option<Error>)
      modifies closer
      ensures closer == null ==> err == None
      ensures closer != null ==> closer.closeCalls == old(closer.closeCalls) + 1 && err == closer.failure
    {
      if closer != null {
        err := closer.Close();
      } else {
        err := None;
      }
    }
  }

  const DispositionPrefix := "attachment; filename=\""

  /** `attachment; filename="<name>"`. */
  function AttachmentDisposition(filename: string): (v: string)
    ensures |v| == |DispositionPrefix| + |filename| + 1
    ensures v[..|DispositionPrefix|] == DispositionPrefix
    ensures v[|DispositionPrefix|..|v| - 1] == filename && v[|v| - 1] == '"'
  {
    DispositionPrefix + filename + "\""
  }
}
