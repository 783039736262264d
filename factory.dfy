/** factory.go: the response factory, its options and its error-envelope
    builders. Logging has no observable result and is not modelled. */
module Factories {
  import opened Wrappers
  import opened Conv
  import opened Errors
  import opened Template
  import opened Headers
  import opened Formatting
  import opened Response
  import Status = HttpStatus
  import Codes
  import StrUtil
  import MimeTypes

  type Details = Option<map<string, string>>

  /** The builders are function values; the defaults are named. */
  datatype ErrorBuilder =
    | DefaultErrorBuilder
    | CustomErrorBuilder(build: (int, string, Details) -> Data)

  datatype ValidationErrorBuilder =
    | DefaultValidationErrorBuilder
    | CustomValidationErrorBuilder(build: (string, map<string, seq<string>>) -> Data)

  /** A factory's settings. `formatter` is `None` only while options are
      being applied. */
  datatype Config = Config(
    verbosity: bool,
    formatter: Option<Formatter>,
    debugMode: bool,
    errorBuilder: ErrorBuilder,
    validationBuilder: ValidationErrorBuilder)

  /** The `Option` constructors; `WithLogger` changes only the logger. */
  datatype FactoryOption =
    | WithLogger
    | WithVerbosity(verbose: bool)
    | WithFormatter(f: Formatter)
    | WithDebugMode(debug: bool)
    | WithErrorBuilder(eb: ErrorBuilder)
    | WithValidationErrorBuilder(vb: ValidationErrorBuilder)

  /** `New`'s starting point. */
  const Defaults := Config(false, None, false, DefaultErrorBuilder, DefaultValidationErrorBuilder)

  function Apply(c: Config, opt: FactoryOption): Config {
    match opt
    case WithLogger => c
    case WithVerbosity(v) => c.(verbosity := v)
    case WithFormatter(f) => c.(formatter := Some(f))
    case WithDebugMode(d) => c.(debugMode := d)
    case WithErrorBuilder(b) => c.(errorBuilder := b)
    case WithValidationErrorBuilder(b) => c.(validationBuilder := b)
  }

  /** The options applied in order. */
  function Configure(c: Config, opts: seq<FactoryOption>): Config
    decreases |opts|
  {
    if opts == [] then c else Configure(Apply(c, opts[0]), opts[1..])
  }

  /** The formatter of the last `WithFormatter` option, if any. */
  function LastFormatter(opts: seq<FactoryOption>): Option<Formatter>
    decreases |opts|
  {
    if opts == [] then None
    else if opts[|opts| - 1].WithFormatter? then Some(opts[|opts| - 1].f)
    else LastFormatter(opts[..|opts| - 1])
  }

  lemma {:induction false} ConfigureSnoc(c: Config, opts: seq<FactoryOption>, opt: FactoryOption)
    ensures Configure(c, opts + [opt]) == Apply(Configure(c, opts), opt)
    decreases |opts|
  {
    if opts != [] {
      assert (opts + [opt])[1..] == opts[1..] + [opt];
      ConfigureSnoc(Apply(c, opts[0]), opts[1..], opt);
    }
  }

  /** Later options win: the configured formatter is the last one supplied,
      or the starting one when no option supplies a formatter. */
  lemma {:induction false} ConfigureFormatter(c: Config, opts: seq<FactoryOption>)
    ensures Configure(c, opts).formatter == if LastFormatter(opts).Some? then LastFormatter(opts) else c.formatter
    decreases |opts|
  {
    if opts != [] {
      var init := opts[..|opts| - 1];
      assert opts == init + [opts[|opts| - 1]];
      ConfigureSnoc(c, init, opts[|opts| - 1]);
      ConfigureFormatter(c, init);
    }
  }

  /** The decimal status a default envelope carries. */
  function DefaultErrorTemplate(status: int, message: string, details: Details): (t: Template)
    ensures t.code == Codes.CodeFromStatus(status) && t.title == message && t.details == details && t.errors == []
    ensures StrUtil.ParseInt(t.status) == Some(status)
  {
    StrUtil.ItoaRoundTrip(status);
    Template(Codes.CodeFromStatus(status), StrUtil.Itoa(status), message, details, [])
  }

  /** One envelope entry per message of one field. */
  function MessagesOf(field: string, messages: seq<string>): (es: seq<TemplateError>)
    ensures |es| == |messages|
    ensures forall i :: 0 <= i < |es| ==> es[i] == TemplateError(field, "", "", messages[i])
  {
    seq(|messages|, i requires 0 <= i < |messages| => TemplateError(field, "", "", messages[i]))
  }

  /** How often `e` may appear in the flattened list: once per occurrence of
      its detail among its field's messages, and never with a node or port. */
  function Expected(attrs: map<string, seq<string>>, done: set<string>, e: TemplateError): nat {
    if e.pointer in attrs && e.pointer in done && e.nodeID == "" && e.portID == ""
    then multiset(attrs[e.pointer])[e.detail] else 0
  }

  lemma {:induction false} MessagesOfCount(field: string, messages: seq<string>, e: TemplateError)
    ensures multiset(MessagesOf(field, messages))[e]
            == if e.pointer == field && e.nodeID == "" && e.portID == "" then multiset(messages)[e.detail] else 0
    decreases |messages|
  {
    if messages != [] {
      var last := |messages| - 1;
      assert messages == messages[..last] + [messages[last]];
      assert MessagesOf(field, messages) == MessagesOf(field, messages[..last]) + [TemplateError(field, "", "", messages[last])];
      MessagesOfCount(field, messages[..last], e);
    }
  }

  /** The inner loop of `defaultValidationErrorBuilder`. */
  method AppendMessages(es: seq<TemplateError>, field: string, messages: seq<string>) returns (out: seq<TemplateError>)
    ensures out == es + MessagesOf(field, messages)
  {
    out := es;
    var j := 0;
    while j < |messages|
      invariant 0 <= j <= |messages|
      invariant out == es + MessagesOf(field, messages[..j])
    {
      assert MessagesOf(field, messages[..j + 1]) == MessagesOf(field, messages[..j]) + [TemplateError(field, "", "", messages[j])];
      out := out + [TemplateError(field, "", "", messages[j])];
      j := j + 1;
    }
    assert messages[..j] == messages;
  }

  /** `defaultValidationErrorBuilder`: one entry per (field, message) pair,
      fields visited in Go's unspecified map order, each field's messages in
      order; code and status are those of 422. */
  method BuildValidationErrors(message: string, attrs: map<string, seq<string>>) returns (t: Template)
    ensures t.code == Codes.CodeFromStatus(Status.UnprocessableEntity) && t.status == "422"
    ensures t.title == message && t.details == None
    ensures forall e :: multiset(t.errors)[e] == Expected(attrs, attrs.Keys, e)
  {
    var es: seq<TemplateError> := [];
    var done: set<string> := {};
    var todo := attrs.Keys;
    while todo != {}
      invariant todo == attrs.Keys - done && done <= attrs.Keys
      invariant forall e :: multiset(es)[e] == Expected(attrs, done, e)
      decreases todo
    {
      var k :| k in todo;
      ghost var before := es;
      es := AppendMessages(es, k, attrs[k]);
      forall e ensures multiset(es)[e] == Expected(attrs, done + {k}, e) {
        MessagesOfCount(k, attrs[k], e);
      }
      done := done + {k};
      todo := todo - {k};
    }
    assert StrUtil.Itoa(422) == "422";
    t := Template(Codes.CodeFromStatus(Status.UnprocessableEntity), StrUtil.Itoa(Status.UnprocessableEntity), message, None, es);
  }

  /** The data `InternalError` hands to the error builder: nothing unless
      verbose; then the error text, and the stack trace of a library error
      when it has one. */
  function InternalErrorDetails(verbosity: bool, err: Error): (d: Details)
    ensures !verbosity <==> d.None?
    ensures verbosity ==> "error" in d.value && d.value["error"] == Text(err)
    ensures verbosity ==> ("stack_trace" in d.value <==> err.Coded? && err.stackTrace != "")
    ensures verbosity && "stack_trace" in d.value ==> d.value["stack_trace"] == err.stackTrace
    ensures verbosity ==> d.value.Keys <= {"error", "stack_trace"}
  {
    if !verbosity then None
    else if err.Coded? && err.stackTrace != "" then Some(map["error" := Text(err), "stack_trace" := err.stackTrace])
    else Some(map["error" := Text(err)])
  }

  const InternalErrorTitle := "Internal server error"
  const ValidationFailedTitle := "Validation failed"

  class Factory {
    var verbosity: bool
    var formatter: Option<Formatter>
    var debugMode: bool
    var errorBuilder: ErrorBuilder
    var validationBuilder: ValidationErrorBuilder

    function State(): Config
      reads this
    {
      Config(verbosity, formatter, debugMode, errorBuilder, validationBuilder)
    }

    /** Every factory has a formatter once built. */
    predicate Valid()
      reads this
    {
      formatter.Some?
    }

    /** `opt(f)`. */
    method ApplyOption(opt: FactoryOption)
      modifies this
      ensures State() == Apply(old(State()), opt)
    {
      match opt
      case WithLogger =>
      case WithVerbosity(v) => verbosity := v;
      case WithFormatter(f) => formatter := Some(f);
      case WithDebugMode(d) => debugMode := d;
      case WithErrorBuilder(b) => errorBuilder := b;
      case WithValidationErrorBuilder(b) => validationBuilder := b;
    }

    /** `for _, opt := range opts { opt(f) }`. */
    method ApplyAll(opts: seq<FactoryOption>)
      modifies this
      ensures State() == Configure(old(State()), opts)
    {
      var i := 0;
      while i < |opts|
        invariant 0 <= i <= |opts|
        invariant State() == Configure(old(State()), opts[..i])
      {
        ApplyOption(opts[i]);
        ConfigureSnoc(old(State()), opts[..i], opts[i]);
        assert opts[..i + 1] == opts[..i] + [opts[i]];
        i := i + 1;
      }
      assert opts[..i] == opts;
    }

    /** `New`: the defaults, then the options in order, then the no-op
        formatter if no option supplied one. */
    constructor New(opts: seq<FactoryOption>)
      ensures Valid()
      ensures var c := Configure(Defaults, opts);
              State() == c.(formatter := if c.formatter.Some? then c.formatter else Some(Noop))
    {
      verbosity := false;
      formatter := None;
      debugMode := false;
      errorBuilder := DefaultErrorBuilder;
      validationBuilder := DefaultValidationErrorBuilder;
      new;
      ApplyAll(opts);
      if formatter.None? {
        formatter := Some(Noop);
      }
    }

    /** A field-for-field copy, `clone := *f`. */
    constructor Copy(c: Config)
      ensures State() == c
    {
      verbosity := c.verbosity;
      formatter := c.formatter;
      debugMode := c.debugMode;
      errorBuilder := c.errorBuilder;
      validationBuilder := c.validationBuilder;
    }

    /** `Clone`: a copy with the options applied; the original is untouched. */
    method Clone(opts: seq<FactoryOption>) returns (clone: Factory)
      requires Valid()
      ensures fresh(clone) && clone.Valid()
      ensures clone.State() == Configure(State(), opts)
    {
      clone := new Factory.Copy(State());
      clone.ApplyAll(opts);
      ConfigureFormatter(State(), opts);
    }

    function GetFormatter(): Formatter
      requires Valid()
      reads this
    {
      formatter.value
    }

    /** `createDataResponse`: a fresh response bound to the factory's
        formatter, whose content type it carries. */
    method CreateDataResponse(status: int, data: Data) returns (r: DataResponse)
      requires Valid()
      ensures fresh(r) && fresh(r.header)
      ensures r.statusCode == status && r.data == data && r.formatter == formatter
      ensures r.Entries() == map[Headers.ContentType := [ContentTypeOf(formatter.value)]]
      ensures !r.isBinary && !r.hasFormatted && r.closer == null && r.filename == ""
    {
      r := new DataResponse(status, data);
      r := r.WithFormatter(formatter.value);
    }

    method Success(data: Data) returns (r: DataResponse)
      requires Valid()
      ensures fresh(r) && fresh(r.header) && r.statusCode == Status.OK && r.data == data && r.formatter == formatter
      ensures r.Entries() == map[Headers.ContentType := [ContentTypeOf(formatter.value)]]
    {
      r := CreateDataResponse(Status.OK, data);
    }

    /** `Created`: a `Location` header iff the location is non-empty. */
    method Created(data: Data, location: string) returns (r: DataResponse)
      requires Valid()
      ensures fresh(r) && fresh(r.header) && r.statusCode == Status.Created && r.data == data && r.formatter == formatter
      ensures r.HeaderValues(Headers.Location) == if location == "" then [] else [location]
      ensures r.HeaderLine(Headers.ContentType) == ContentTypeOf(formatter.value)
    {
      r := CreateDataResponse(Status.Created, data);
      if location != "" {
        r := r.WithHeader(Headers.Location, location);
      }
    }

    method Accepted(data: Data) returns (r: DataResponse)
      requires Valid()
      ensures fresh(r) && fresh(r.header) && r.statusCode == Status.Accepted && r.data == data && r.formatter == formatter
      ensures r.Entries() == map[Headers.ContentType := [ContentTypeOf(formatter.value)]]
    {
      r := CreateDataResponse(Status.Accepted, data);
    }

    method NoContent() returns (r: DataResponse)
      requires Valid()
      ensures fresh(r) && fresh(r.header) && r.statusCode == Status.NoContent && r.data == Nil && r.formatter == formatter
      ensures r.Entries() == map[Headers.ContentType := [ContentTypeOf(formatter.value)]]
    {
      r := CreateDataResponse(Status.NoContent, Nil);
    }

    /** `f.errorBuilder(ctx, status, message, details)`. */
    function BuildError(status: int, message: string, details: Details): (d: Data)
      reads this
      ensures errorBuilder.DefaultErrorBuilder? ==> d == Envelope(DefaultErrorTemplate(status, message, details))
    {
      match errorBuilder
      case DefaultErrorBuilder => Envelope(DefaultErrorTemplate(status, message, details))
      case CustomErrorBuilder(build) => build(status, message, details)
    }

    /** `Error` as written: an empty message becomes the status text and the
        envelope names the requested status, but the response itself is
        always a 500, whatever status was asked for. */
    method ErrorAsWritten(status: int, message: string) returns (r: DataResponse)
      requires Valid()
      ensures fresh(r) && fresh(r.header) && r.formatter == formatter
      ensures r.statusCode == Status.InternalServerError
      ensures r.data == BuildError(status, if message == "" then Status.StatusText(status) else message, None)
      ensures errorBuilder.DefaultErrorBuilder? ==>
                r.data.Envelope? && StrUtil.ParseInt(r.data.t.status) == Some(status)
      ensures r.Entries() == map[Headers.ContentType := [ContentTypeOf(formatter.value)]]
    {
      var msg := message;
      if msg == "" {
        msg := Status.StatusText(status);
      }
      var data := BuildError(status, msg, None);
      r := CreateDataResponse(Status.InternalServerError, data);
    }

    /** `NotFound` as written, on top of `ErrorAsWritten`: the default
        envelope says 404 while the response is served as a 500. */
    method NotFoundAsWritten(message: string) returns (r: DataResponse)
      requires Valid()
      ensures fresh(r) && r.statusCode == Status.InternalServerError
      ensures r.data == BuildError(Status.NotFound, if message == "" then "Not Found" else message, None)
      ensures errorBuilder.DefaultErrorBuilder? ==>
                r.data.Envelope? && StrUtil.ParseInt(r.data.t.status) == Some(Status.NotFound)
                && StrUtil.ParseInt(r.data.t.status) != Some(r.statusCode)
    {
      Status.NotFoundText();
      r := ErrorAsWritten(Status.NotFound, message);
    }

    /** `Error` as its callers' documentation describes it: the response
        carries the requested status, the same one its envelope names. */
    method Error(status: int, message: string) returns (r: DataResponse)
      requires Valid()
      ensures fresh(r) && fresh(r.header) && r.formatter == formatter
      ensures r.statusCode == status
      ensures r.data == BuildError(status, if message == "" then Status.StatusText(status) else message, None)
      ensures errorBuilder.DefaultErrorBuilder? ==>
                r.data.Envelope? && StrUtil.ParseInt(r.data.t.status) == Some(r.statusCode)
      ensures r.Entries() == map[Headers.ContentType := [ContentTypeOf(formatter.value)]]
    {
      var msg := message;
      if msg == "" {
        msg := Status.StatusText(status);
      }
      var data := BuildError(status, msg, None);
      r := CreateDataResponse(status, data);
    }

    /** `InternalError`: a fixed title; details only when verbose. */
    method InternalError(err: Error) returns (r: DataResponse)
      requires Valid()
      ensures fresh(r) && fresh(r.header) && r.formatter == formatter
      ensures r.statusCode == Status.InternalServerError
      ensures r.data == BuildError(Status.InternalServerError, InternalErrorTitle, InternalErrorDetails(verbosity, err))
      ensures r.Entries() == map[Headers.ContentType := [ContentTypeOf(formatter.value)]]
    {
      var details := InternalErrorDetails(verbosity, err);
      var data := BuildError(Status.InternalServerError, InternalErrorTitle, details);
      r := CreateDataResponse(Status.InternalServerError, data);
    }

    method BadRequest(message: string) returns (r: DataResponse)
      requires Valid()
      ensures fresh(r) && fresh(r.header) && r.formatter == formatter && r.statusCode == Status.BadRequest
      ensures r.data == BuildError(Status.BadRequest, if message == "" then "Bad Request" else message, None)
      ensures r.Entries() == map[Headers.ContentType := [ContentTypeOf(formatter.value)]]
    {
      Status.BadRequestText();
      r := Error(Status.BadRequest, message);
    }

    method Unauthorized(message: string) returns (r: DataResponse)
      requires Valid()
      ensures fresh(r) && fresh(r.header) && r.formatter == formatter && r.statusCode == Status.Unauthorized
      ensures r.data == BuildError(Status.Unauthorized, if message == "" then "Unauthorized" else message, None)
      ensures r.Entries() == map[Headers.ContentType := [ContentTypeOf(formatter.value)]]
    {
      Status.UnauthorizedText();
      r := Error(Status.Unauthorized, message);
    }

    method ServiceUnavailable(message: string) returns (r: DataResponse)
      requires Valid()
      ensures fresh(r) && fresh(r.header) && r.formatter == formatter && r.statusCode == Status.ServiceUnavailable
      ensures r.data == BuildError(Status.ServiceUnavailable, if message == "" then "Service Unavailable" else message, None)
      ensures r.Entries() == map[Headers.ContentType := [ContentTypeOf(formatter.value)]]
    {
      Status.ServiceUnavailableText();
      r := Error(Status.ServiceUnavailable, message);
    }

    method Forbidden(message: string) returns (r: DataResponse)
      requires Valid()
      ensures fresh(r) && fresh(r.header) && r.formatter == formatter && r.statusCode == Status.Forbidden
      ensures r.data == BuildError(Status.Forbidden, if message == "" then "Forbidden" else message, None)
      ensures r.Entries() == map[Headers.ContentType := [ContentTypeOf(formatter.value)]]
    {
      Status.ForbiddenText();
      r := Error(Status.Forbidden, message);
    }

    method NotFound(message: string) returns (r: DataResponse)
      requires Valid()
      ensures fresh(r) && fresh(r.header) && r.formatter == formatter && r.statusCode == Status.NotFound
      ensures r.data == BuildError(Status.NotFound, if message == "" then "Not Found" else message, None)
      ensures r.Entries() == map[Headers.ContentType := [ContentTypeOf(formatter.value)]]
    {
      Status.NotFoundText();
      r := Error(Status.NotFound, message);
    }

    method Conflict(message: string) returns (r: DataResponse)
      requires Valid()
      ensures fresh(r) && fresh(r.header) && r.formatter == formatter && r.statusCode == Status.Conflict
      ensures r.data == BuildError(Status.Conflict, if message == "" then "Conflict" else message, None)
      ensures r.Entries() == map[Headers.ContentType := [ContentTypeOf(formatter.value)]]
    {
      Status.ConflictText();
      r := Error(Status.Conflict, message);
    }

    /** `ValidationError`: a 422 whose envelope the validation builder makes. */
    method ValidationError(message: string, attrs: map<string, seq<string>>) returns (r: DataResponse)
      requires Valid()
      ensures fresh(r) && fresh(r.header) && r.formatter == formatter
      ensures r.statusCode == Status.UnprocessableEntity
      ensures r.Entries() == map[Headers.ContentType := [ContentTypeOf(formatter.value)]]
      ensures var title := if message == "" then ValidationFailedTitle else message;
              match validationBuilder
              case CustomValidationErrorBuilder(build) => r.data == build(title, attrs)
              case DefaultValidationErrorBuilder =>
                r.data.Envelope? && r.data.t.title == title && r.data.t.status == "422"
                && r.data.t.code == Codes.CodeFromStatus(Status.UnprocessableEntity)
                && forall e :: multiset(r.data.t.errors)[e] == Expected(attrs, attrs.Keys, e)
    {
      var title := message;
      if title == "" {
        title := ValidationFailedTitle;
      }
      var data: Data;
      if validationBuilder.CustomValidationErrorBuilder? {
        data := validationBuilder.build(title, attrs);
      } else {
        var t := BuildValidationErrors(title, attrs);
        data := Envelope(t);
      }
      r :=  CreateDataResponse(Status.UnprocessableEntity, data);
    }

    /** `Binary`: a 200 carrying the stream as its pre-formatted body, marked
        binary, with the content type its file name's extension maps to. The
        file name itself is not stored (see README). */
    method Binary(reader: Closer, stream: Bytes, filename: string, size: int) returns (r: DataResponse)
      requires Valid()
      ensures fresh(r) && fresh(r.header) && r.statusCode == Status.OK && r.data == Nil
      ensures r.hasFormatted && r.formatted == Formatted("", Some(stream), size, [])
      ensures r.isBinary && r.closer == reader && r.formatter == formatter
      ensures r.Entries() == map[Headers.ContentType := [MimeTypes.MimeTypeFromExtension(StrUtil.Ext(filename))]]
      ensures r.Body(Err(FormatterMustBeSet)) == Ok(Formatted("", Some(stream), size, []))
    {
      var contentType := MimeTypes.MimeTypeFromExtension(StrUtil.Ext(filename));
      r := CreateDataResponse(Status.OK, Nil);
      r := r.WithFormatted(Formatted("", Some(stream), size, []));
      r := r.WithFile(reader);
      Headers.ReplacedSingleton(Headers.ContentType, ContentTypeOf(formatter.value), contentType);
      r := r.WithContentType(contentType);
    }
  }

  /** Every entry of a flattened list names a field of the input and one of
      that field's messages, and carries no node or port. */
  lemma {:induction false} ValidationErrorsShape(attrs: map<string, seq<string>>, errors: seq<TemplateError>, e: TemplateError)
    requires forall x :: multiset(errors)[x] == Expected(attrs, attrs.Keys, x)
    requires e in errors
    ensures e.pointer in attrs && e.detail in attrs[e.pointer] && e.nodeID == "" && e.portID == ""
  {
    assert multiset(errors)[e] > 0;
    assert Expected(attrs, attrs.Keys, e) > 0;
  }
}
