/** middleware/content_type_validator.go: rejects requests whose
    `Content-Type` is not on an allow-list whose entries may be wildcards:
    a type followed by a slash and a star, star-slash-star, or a lone star. Case folding is ASCII only. */
module ContentTypeValidation {
  import opened Wrappers
  import opened Headers
  import opened Requests
  import StrUtil
  import F = Factories
  import P = Response
  import Status = HttpStatus
  import Formatting

  /** The media type compared: parameters dropped, lower-cased, trimmed. */
  function MediaType(contentType: string): string {
    StrUtil.TrimSpace(StrUtil.ToLower(StrUtil.CutAt(contentType, ';')))
  }

  /** An allow-list entry as compared: lower-cased and trimmed. */
  function Normalized(entry: string): string {
    StrUtil.TrimSpace(StrUtil.ToLower(entry))
  }

  /** One normalised entry against a media type: equal, a type-wide wildcard
      whose type and slash start the media type, or a match-anything entry. */
  predicate EntryMatches(mediaType: string, allowed: string) {
    || mediaType == allowed
    || (StrUtil.HasSuffix(allowed, "/*") && StrUtil.HasPrefix(mediaType, allowed[..|allowed| - 2] + "/"))
    || allowed == "*/*"
    || allowed == "*"
  }

  /** The loop over the allow-list, stopping at the first match. */
  predicate AnyEntryMatches(mediaType: string, allowedTypes: seq<string>)
    decreases |allowedTypes|
  {
    if allowedTypes == [] then false
    else if EntryMatches(mediaType, Normalized(allowedTypes[0])) then true
    else AnyEntryMatches(mediaType, allowedTypes[1..])
  }

  /** `isAllowedContentType`. */
  predicate IsAllowedContentType(contentType: string, allowedTypes: seq<string>) {
    contentType != "" && AnyEntryMatches(MediaType(contentType), allowedTypes)
  }

  lemma {:induction false} AnyEntryMatchesIffExists(mediaType: string, allowedTypes: seq<string>)
    ensures AnyEntryMatches(mediaType, allowedTypes)
            <==> exists i :: 0 <= i < |allowedTypes| && EntryMatches(mediaType, Normalized(allowedTypes[i]))
    decreases |allowedTypes|
  {
    if allowedTypes != [] {
      var rest := allowedTypes[1..];
      AnyEntryMatchesIffExists(mediaType, rest);
      forall i | 0 < i < |allowedTypes|
        ensures allowedTypes[i] == rest[i - 1]
      {
      }
    }
  }

  /** A content type is allowed iff it is non-empty and some entry of the
      list matches its media type; so an empty list allows nothing, and a
      match-anything entry allows every non-empty content type. */
  lemma IsAllowedContentTypeSpec(contentType: string, allowedTypes: seq<string>)
    ensures IsAllowedContentType(contentType, allowedTypes)
            <==> contentType != ""
                 && exists i :: 0 <= i < |allowedTypes| && EntryMatches(MediaType(contentType), Normalized(allowedTypes[i]))
    ensures allowedTypes == [] ==> !IsAllowedContentType(contentType, allowedTypes)
    ensures contentType != "" && (exists i :: 0 <= i < |allowedTypes| && (Normalized(allowedTypes[i]) == "*/*" || Normalized(allowedTypes[i]) == "*"))
            ==> IsAllowedContentType(contentType, allowedTypes)
  {
    AnyEntryMatchesIffExists(MediaType(contentType), allowedTypes);
  }

  /** A type-wide wildcard entry admits every media type under its type. */
  lemma WildcardEntry(kind: string, mediaType: string)
    requires StrUtil.HasPrefix(mediaType, kind + "/")
    ensures EntryMatches(mediaType, kind + "/*")
  {
    var allowed := kind + "/*";
    assert allowed[..|allowed| - 2] == kind;
    assert allowed[|allowed| - 2..] == "/*";
  }

  datatype Options = Options(allowedTypes: seq<string>, methods: seq<string>, errorMessage: string, ignoreEmpty: bool)

  const DefaultMethods := ["POST", "PUT", "PATCH"]
  const DefaultErrorMessage := "Unsupported Media Type"

  /** The middleware `ContentTypeValidator(opts)` returns, with its
      defaults filled in and its method set built. */
  class ContentTypeValidator {
    const allowedTypes: seq<string>
    const errorMessage: string
    const ignoreEmpty: bool
    var methodSet: set<string>

    /** Methods default to POST, PUT and PATCH and the message to
        "Unsupported Media Type"; listed methods are upper-cased. */
    constructor(opts: Options)
      ensures Valid()
      ensures allowedTypes == opts.allowedTypes && ignoreEmpty == opts.ignoreEmpty
      ensures errorMessage == if opts.errorMessage == "" then DefaultErrorMessage else opts.errorMessage
      ensures var ms := if opts.methods == [] then DefaultMethods else opts.methods;
              methodSet == set m | m in ms :: StrUtil.ToUpper(m)
    {
      allowedTypes := opts.allowedTypes;
      ignoreEmpty := opts.ignoreEmpty;
      errorMessage := if opts.errorMessage == "" then DefaultErrorMessage else opts.errorMessage;
      var ms := if opts.methods == [] then DefaultMethods else opts.methods;
      var built: set<string> := {};
      var i := 0;
      while i < |ms|
        invariant 0 <= i <= |ms|
        invariant built == set m | m in ms[..i] :: StrUtil.ToUpper(m)
      {
        assert ms[..i + 1] == ms[..i] + [ms[i]];
        built := built + {StrUtil.ToUpper(ms[i])};
        i := i + 1;
      }
      assert ms[..i] == ms;
      methodSet := built;
    }

    /** The error message is never empty once the defaults are applied. */
    predicate Valid() {
      errorMessage != ""
    }

    /** The request is checked: its method, compared as given, is in the
        set, and it is not an empty body that may be skipped. */
    predicate Checks(req: Request)
      reads this
    {
      req.verb in methodSet && !(ignoreEmpty && req.contentLength == 0)
    }

    /** The handler: a checked request with a disallowed content type gets a
        415 naming the allowed types in `Accept`, and the next handler is
        not called; anything else goes to the next handler. */
    method Handle(req: Request, f: F.Factory, next: Next) returns (r: P.DataResponse)
      requires Valid() && f.Valid()
      modifies next
      ensures var rejected := Checks(req) && !IsAllowedContentType(HeaderOf(req, ContentType), allowedTypes);
              && (rejected ==>
                    fresh(r) && r.statusCode == Status.UnsupportedMediaType && next.calls == old(next.calls)
                    && r.data == f.BuildError(Status.UnsupportedMediaType, errorMessage, None)
                    && r.Entries() == Appended(map[ContentType := [Formatting.ContentTypeOf(f.formatter.value)]],
                                               Accept, StrUtil.Join(allowedTypes, ", ")))
              && (!rejected ==> r == next.reply && next.calls == old(next.calls) + 1)
    {
      if req.verb !in methodSet {
        r := next.Handle();
        return;
      }
      if ignoreEmpty && req.contentLength == 0 {
        r := next.Handle();
        return;
      }
      var contentType := HeaderOf(req, ContentType);
      if !IsAllowedContentType(contentType, allowedTypes) {
        r := Reject(f, errorMessage, StrUtil.Join(allowedTypes, ", "));
        return;
      }
      r := next.Handle();
    }
  }

  /** The 415 response: the factory's error with the message, and the
      allowed types in `Accept`. */
  method Reject(f: F.Factory, message: string, accept: string) returns (r: P.DataResponse)
    requires f.Valid() && message != ""
    ensures fresh(r) && r.statusCode == Status.UnsupportedMediaType
    ensures r.data == f.BuildError(Status.UnsupportedMediaType, message, None)
    ensures r.Entries() == Appended(map[ContentType := [Formatting.ContentTypeOf(f.formatter.value)]], Accept, accept)
  {
    r := f.Error(Status.UnsupportedMediaType, message);
    r := r.WithHeader(Accept, accept);
  }
}
