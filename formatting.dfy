/** formatter.go, response/formatted_response.go and the control logic of
    formatter/json.go, formatter/xml.go, formatter/html.go and
    formatter/binary.go. The encoders and templates themselves are function
    values in `Codecs`. */
module Formatting {
  import opened Wrappers
  import opened Conv
  import opened Errors
  import H = Headers
  import MimeTypes
  import StrUtil

  /** An `*html/template.Template`, known by identity. */
  type TemplateId = nat

  /** What a formatter hands to the writer. `stream` is the reader's
      remaining bytes, `None` for a nil reader; `body` is the buffered body
      the writer also accepts (no formatter fills it). */
  datatype Formatted = Formatted(contentType: string, stream: Option<Bytes>, streamSize: int, body: Bytes)

  /** The zero value `FormattedResponse{}`. */
  const Empty := Formatted("", None, 0, [])

  /** `formatter/html.go`'s `*HTML`: the template is a field that
      `WithTemplate` overwrites. */
  class HtmlFormatter {
    var template: Option<TemplateId>

    /** `NewHTML`. */
    constructor()
      ensures template == None
    {
      template := None;
    }

    /** `WithTemplate`: stores the template and returns the same formatter. */
    method WithTemplate(t: TemplateId) returns (self: HtmlFormatter)
      modifies this
      ensures self == this && template == Some(t)
    {
      template := Some(t);
      self := this;
    }
  }

  /** The library's formatters. `Noop` is factory.go's fallback. */
  datatype Formatter =
    | Json(indent: bool)
    | Xml(indent: bool)
    | Html(html: HtmlFormatter)
    | Binary
    | Noop

  /** `NewJSON`, `NewJSONIndent`, `NewXML`, `NewXMLIndent`, `NewBinary`. */
  const NewJson := Json(false)
  const NewJsonIndent := Json(true)
  const NewXml := Xml(false)
  const NewXmlIndent := Xml(true)

  /** `ContentType()` of each formatter. */
  function ContentTypeOf(f: Formatter): (ct: string)
    ensures ct != ""
  {
    match f
    case Json(_) => H.ContentTypeJson
    case Xml(_) => H.ContentTypeXml
    case Html(_) => H.ContentTypeHtml
    case Binary => H.ContentTypeOctetStream
    case Noop => H.ContentTypePlain
  }

  /** `CanFormatBinary()`: only the binary formatter overrides
      `BaseFormatter`'s false. */
  predicate CanFormatBinary(f: Formatter) {
    f.Binary?
  }

  /** The external encoders: json-iterator's `Encode` and `encoding/xml`'s
      `Encode` and `Flush` (each given the indent flag), and
      `html/template`'s `Execute`. */
  datatype Codecs = Codecs(
    encodeJson: (Data, bool) -> Result<Bytes, Error>,
    encodeXml: (Data, bool) -> Result<Bytes, Error>,
    flushXml: (Data, bool) -> Option<Error>,
    executeTemplate: (TemplateId, Data) -> Result<Bytes, Error>)

  /** A buffered result: the reader over the buffer and its length. */
  function Buffered(contentType: string, bytes: Bytes): (fr: Formatted)
    ensures fr.stream == Some(bytes) && fr.streamSize == |bytes| && fr.contentType == contentType
  {
    Formatted(contentType, Some(bytes), |bytes|, [])
  }

  const XmlProlog := "<?xml version=\"1.0\" encoding=\"UTF-8\"?>\n"

  /** `JSON.Format`. */
  function JsonFormat(indent: bool, isBinary: bool, data: Data, codecs: Codecs): (r: Result<Formatted, Error>)
  {
    if isBinary then Err(NewError(500, "cannot format binary as JSON"))
    else if data.Nil? then Ok(Buffered(H.ContentTypeJson, "null"))
    else match codecs.encodeJson(data, indent)
      case Err(e) => Err(WrapError(500, e, "failed to encode JSON"))
      case Ok(bytes) => Ok(Buffered(H.ContentTypeJson, bytes))
  }

  /** `XML.Format`. */
  function XmlFormat(indent: bool, isBinary: bool, data: Data, codecs: Codecs): (r: Result<Formatted, Error>)
  {
    if isBinary then Err(NewError(500, "cannot format binary as XML"))
    else if data.Nil? then Ok(Buffered(H.ContentTypeXml, ""))
    else match codecs.encodeXml(data, indent)
      case Err(e) => Err(WrapError(500, e, "failed to encode XML"))
      case Ok(bytes) =>
        match codecs.flushXml(data, indent)
        case Some(e) => Err(WrapError(500, e, "failed to flush XML encoder"))
        case None => Ok(Buffered(H.ContentTypeXml, XmlProlog + bytes))
  }

  /** `HTML.Format` with the template the formatter holds; without one,
      `defaultTemplate` writes `DataToString(data)`. */
  function HtmlFormat(template: Option<TemplateId>, isBinary: bool, data: Data, codecs: Codecs): (r: Result<Formatted, Error>)
  {
    if isBinary then Err(NewError(500, "cannot format binary as HTML"))
    else match template
      case Some(t) =>
        (match codecs.executeTemplate(t, data)
         case Err(e) => Err(WrapError(500, e, "failed to execute template"))
         case Ok(bytes) => Ok(Buffered(H.ContentTypeHtml, bytes)))
      case None =>
        (match DataToString(data)
         case Err(e) => Err(e)
         case Ok(bytes) => Ok(Buffered(H.ContentTypeHtml, bytes)))
  }

  /** The content type `Binary.Format` reports: the response's own, or the
      one its file name's extension maps to. */
  function BinaryContentType(responseContentType: string, filename: string): (ct: string)
    ensures responseContentType != "" ==> ct == responseContentType
    ensures responseContentType == "" ==> ct == MimeTypes.MimeTypeFromExtension(StrUtil.Ext(filename))
    ensures ct != ""
  {
    if responseContentType != "" then responseContentType
    else MimeTypes.MimeTypeFromExtension(StrUtil.Ext(filename))
  }

  /** What a response's `Body()` yields: a size and a reader. */
  datatype Payload = Payload(size: int, stream: Option<Bytes>)

  /** `Binary.Format`, given what `resp.Body()` returned. */
  function BinaryFormat(responseContentType: string, filename: string, body: Result<Payload, Error>): (r: Result<Formatted, Error>)
    ensures body.Err? ==> r == Err(body.error)
    ensures body.Ok? ==> r.Ok? && r.value.stream == body.value.stream && r.value.streamSize == body.value.size
    ensures body.Ok? ==> r.value.contentType == BinaryContentType(responseContentType, filename)
  {
    match body
    case Err(e) => Err(e)
    case Ok(p) => Ok(Formatted(BinaryContentType(responseContentType, filename), p.stream, p.size, []))
  }

  /** The text formatters answer a binary response with a 500 error and
      format nothing; given non-binary data they either fail with a 500 or
      yield a buffered stream whose size is its length, under their own
      content type. Nil data gives "null" in JSON and nothing in XML. */
  lemma {:induction false} TextFormattersContract(indent: bool, template: Option<TemplateId>, isBinary: bool,
                                                  data: Data, codecs: Codecs)
    ensures var rs := [JsonFormat(indent, isBinary, data, codecs), XmlFormat(indent, isBinary, data, codecs),
                       HtmlFormat(template, isBinary, data, codecs)];
            var cts := [H.ContentTypeJson, H.ContentTypeXml, H.ContentTypeHtml];
            forall i :: 0 <= i < 3 ==>
              (isBinary ==> rs[i].Err? && rs[i].error.Coded? && rs[i].error.code == 500)
              && (rs[i].Ok? ==> rs[i].value.stream.Some? && rs[i].value.streamSize == |rs[i].value.stream.value|
                                && rs[i].value.contentType == cts[i] && rs[i].value.body == [])
              && (rs[i].Err? && rs[i].error.Coded? ==> rs[i].error.code == 500)
    ensures !isBinary && data.Nil? ==>
              JsonFormat(indent, isBinary, data, codecs) == Ok(Formatted(H.ContentTypeJson, Some("null"), 4, []))
              && XmlFormat(indent, isBinary, data, codecs) == Ok(Formatted(H.ContentTypeXml, Some(""), 0, []))
  {
  }

  /** Non-nil XML output starts with the `xml.Header` prolog and then holds
      exactly the encoder's bytes. */
  lemma {:induction false} XmlStartsWithProlog(indent: bool, data: Data, codecs: Codecs)
    requires !data.Nil?
    requires XmlFormat(indent, false, data, codecs).Ok?
    ensures var s := XmlFormat(indent, false, data, codecs).value.stream.value;
            StrUtil.HasPrefix(s, XmlProlog) && codecs.encodeXml(data, indent).Ok?
            && s[|XmlProlog|..] == codecs.encodeXml(data, indent).value
  {
    var s := XmlFormat(indent, false, data, codecs).value.stream.value;
    assert s == XmlProlog + codecs.encodeXml(data, indent).value;
  }

  /** Without a template the HTML formatter succeeds exactly on strings and
      byte slices, and emits their bytes. */
  lemma {:induction false} HtmlDefaultTemplate(data: Data, codecs: Codecs)
    ensures HtmlFormat(None, false, data, codecs).Ok? <==> data.Str? || data.ByteSlice?
    ensures data.Str? ==> HtmlFormat(None, false, data, codecs).value.stream == Some(data.s)
    ensures data.ByteSlice? ==> HtmlFormat(None, false, data, codecs).value.stream == Some(data.b)
  {
  }
}
