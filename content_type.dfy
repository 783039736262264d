/** middleware/content_type.go: the request's `Content-Type`, cut at its
    first `;`, must equal the factory formatter's content type exactly. */
module ContentTypeCheck {
  import opened Headers
  import opened Requests
  import StrUtil
  import F = Factories
  import P = Response
  import Status = HttpStatus
  import Formatting
  import opened Wrappers

  const UnsupportedMessage := "Unsupported Media Type"

  /** The compared value: everything before the first `;`, untrimmed and
      with its case kept. */
  function RequestMediaType(contentType: string): string {
    StrUtil.CutAt(contentType, ';')
  }

  /** Parameters are ignored, and a type without parameters is compared
      whole. */
  lemma ParametersIgnored(mediaType: string, parameters: string)
    requires ';' !in mediaType
    ensures RequestMediaType(mediaType + ";" + parameters) == mediaType
    ensures RequestMediaType(mediaType) == mediaType
  {
    var s := mediaType + ";" + parameters;
    assert s[|mediaType|] == ';';
    assert s[..|mediaType|] == mediaType;
  }

  /** `CheckContentType`'s handler. */
  method CheckContentType(req: Request, f: F.Factory, next: Next) returns (r: P.DataResponse)
    requires f.Valid()
    modifies next
    ensures var mismatch := RequestMediaType(HeaderOf(req, ContentType)) != Formatting.ContentTypeOf(f.formatter.value);
            && (mismatch ==>
                  fresh(r) && r.statusCode == Status.UnsupportedMediaType && next.calls == old(next.calls)
                  && r.data == f.BuildError(Status.UnsupportedMediaType, UnsupportedMessage, None))
            && (!mismatch ==> r == next.reply && next.calls == old(next.calls) + 1)
  {
    var contentType := RequestMediaType(HeaderOf(req, ContentType));
    if contentType != Formatting.ContentTypeOf(f.GetFormatter()) {
      r := f.Error(Status.UnsupportedMediaType, UnsupportedMessage);
      return;
    }
    r := next.Handle();
  }
}
