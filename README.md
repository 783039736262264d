# data-response, modelled in Dafny

A model of the core of the Go library `data-response`. A handler returns a
logical `DataResponse`: a status, data, headers and an optional formatter or
binary stream. The library turns it into an HTTP response. The model covers:

- both generations of the response type: the pointer-receiver one in
  `response/response.go`, whose builders mutate in place, and the older
  value-receiver one in `response.go`, whose copies share one header map;
- the factory that builds success, error and validation-error responses and
  their error envelopes (`factory.go`, `codes.go`, `template.go`);
- the formatters' control logic (JSON, XML, HTML and binary). The encoders and
  templates themselves are function values;
- the writer (`writer.go`): header assembly, one `WriteHeader`, bounded or
  unbounded body copy, and the three-step recovery cascade. It writes to an
  instrumented transport (`Transport.Sink`) that records every status sent,
  the header map at the commit and the bytes delivered, and can be made to
  fail writes or to accept only half of each write;
- the response recorders (`handler.go`, `server.go`, `http/server.go`) and
  the `WrapHandler` fallback cascade;
- middleware composition (`chain.go`) and the middlewares: content
  negotiation, the content-type allow-list and exact check, Brotli and the
  automatic compressor, and route measurement;
- the older handler adapters in `handler/`: the data-response adapter, the
  `FormatWriter` adapter, the liveness error aggregator and registry, and the
  version endpoint.

Go's `string` and `[]byte` are both `string` here, one character per byte. A
middleware's `next` handler is a `Requests.Next` object that counts its calls
and returns a fixed response. Go's random map iteration order is modelled as
an arbitrary choice (`:|`), and the contracts hold for every order.

One test does not match the code. `writer_test.go:114-132` expects a
half-writing connection to make `Write` fail with "partial write". A JSON
body has a positive size, so it is copied with `io.CopyN`, and against such
a writer that returns `io.ErrShortWrite` ("short write"), as
`Transport.HalvingCopyIsShortWrite` states. Only `writeMinimalError`
produces the "partial write" text (`Writer.MinimalErrorFaults`).

## Model

| member | source | states |
|---|---|---|
| Response.DataResponse.constructor | response/response.go:40 | `NewDataResponse` has the given status and data, an empty allocated header, no formatter, no pre-formatted body, not binary, no closer |
| Response.DataResponse.WithStatusCode | response/response.go:53-57 | returns the same object, so nothing is copied: only the status changes, every other field keeps its value |
| Response.DataResponse.WithData | response/response.go:209-213 | returns the same object with only the data replaced |
| Response.DataResponse.WithFormatted | response/response.go:94-99 | returns the same object, now holding the pre-formatted body, with the other fields unchanged |
| Response.DataResponse.Body | response/response.go:64-90 | source priority: the pre-formatted body if present, else the formatter's output, else `DataToString` of the data, which succeeds exactly for strings and byte slices and reports a size equal to the byte length |
| Response.DataResponse.HeaderValues | response/response.go:107-116 | all values of the key, and none on an empty header map |
| Response.DataResponse.HeaderLine | response/response.go:118-125 | the first value of the key, "" on an empty map, and a non-empty result is the key's first value |
| Response.DataResponse.HasHeader | response/response.go:142-148 | holds exactly when the key has a first value and it is non-empty |
| Response.DataResponse.GetFormatter | response/response.go:151-157 | succeeds iff a formatter is stored and returns it; otherwise fails with `ErrFormatterMustBeSet` |
| Response.DataResponse.WithHeader | response/response.go:160-168 | appends the value to the key and keeps earlier ones; a nil header is allocated first; no other field changes |
| Response.DataResponse.SetHeader | response/response.go:171-178 | leaves exactly the one value under the key, other keys untouched |
| Response.DataResponse.WithoutHeader | response/response.go:181-190 | removes every value of the key, leaves the other keys untouched, and changes nothing on an empty map |
| Response.DataResponse.WithHeaders | response/response.go:193-201 | the header becomes the old header with every given value appended under its key, in any key order; a nil header is accepted only when no value is added (Go panics on writing into a nil map) and then stays nil |
| Response.DataResponse.WithContentType | response/response.go:204-206 | `Content-Type` holds exactly the given value and reads back as the content type |
| Response.DataResponse.WithCacheControl | response/response.go:216-218 | appends the value to `Cache-Control`, allocating a nil header first and keeping an existing one; no other field changes |
| Response.DataResponse.WithCORS | response/response.go:221-231 | always appends the origin; appends methods and headers only when they are non-empty; no other key and no other field changes |
| Response.DataResponse.WithSecurityHeaders | response/response.go:234-239 | appends exactly the three fixed security headers (nosniff, DENY, strict-origin-when-cross-origin); no other key and no other field changes |
| Response.DataResponse.WithContentDisposition | response/response.go:241-243 | appends an attachment disposition naming the file, allocating a nil header first and keeping an existing one; no other field changes, the stored file name included |
| Response.AttachmentDisposition | response/response.go:241-243 | the disposition value is the fixed prefix, then the file name, then a closing quote |
| Response.DataResponse.WithFormatter | response/response.go:245-249 | stores the formatter, so `Formatter()` returns it, and sets `Content-Type` to exactly its content type |
| Response.DataResponse.WithFile | response/response.go:259-264 | marks the response binary and stores the closer, with the other fields unchanged |
| Response.DataResponse.Close | response/response.go:251-257 | calls the closer once and returns its error when one is set; otherwise returns no error |
| ValueResponses.GetFormatter | response.go:130-136 | succeeds iff a formatter is set, and otherwise fails with `ErrFormatterMustBeSet` |
| ValueResponses.SetOrAddProperties | response.go:140-151 | `WithHeader` replaces all values when the key's first value is non-empty, else appends. So repeating it with a non-empty value leaves one value, and a key whose first value is "" keeps growing and still reads "" |
| ValueResponses.WithHeader | response.go:140-151 | the returned copy differs only in its header; a nil header is freshly allocated, otherwise the same map is shared and updated in place by replace-if-present |
| ValueResponses.WithoutHeader | response.go:153-161 | returns the response unchanged; a non-nil shared header loses the key, a nil one stays nil |
| ValueResponses.WithHeaders | response.go:165-176 | allocates a nil header, then the shared header gains every given value under its key |
| ValueResponses.WithContentType | response.go:179-181 | `Content-Type` goes through the same replace-if-present rule as `WithHeader` |
| ValueResponses.WithData | response.go:184-188 | the copy differs only in its data and shares the original's header map |
| ValueResponses.WithStream | response.go:73-78 | the copy differs only in stream and size; it has data, and it is binary whenever the original's flag is set |
| ValueResponses.WithFormatter | response.go:216-220 | the copy differs only in its formatter, which `Formatter()` now returns |
| ValueResponses.Body | response.go:47-71 | an attached stream is returned with its size and the header untouched; otherwise the formatter's output (its content type is written into the shared header); otherwise `DataToString` with the size equal to the byte length |
| ValueResponses.Format | formatter/binary.go:28-46 | the text formatters ignore the header; the binary formatter returns `Body()`'s stream, formatter output or data bytes with their size, or its error, under the response's content type as it was before the call, else the one its file extension names (`ValueResponses.BinaryResult`); the header changes only when the response's formatter ran |
| ValueResponses.BinaryFailure | formatter/binary.go:36-39 | the binary formatter fails exactly when the response has no stream and its own formatter, or without one the conversion of its data, fails; the content type plays no part |
| Factories.ConfigureFormatter | factory.go:45-86 | after applying options in order, the formatter is the one set by the last `WithFormatter` option, or the starting one when no option sets one |
| Factories.Factory.ApplyOption | factory.go:45-86 | each option changes exactly its own field; `WithLogger` changes nothing observable |
| Factories.Factory.ApplyAll | factory.go:89-107 | the options are applied in the order given |
| Factories.Factory.New | factory.go:89-107 | the defaults (verbosity and debug off, default builders) with the options applied in order; the no-op formatter is installed iff no option supplied one |
| Factories.Factory.Copy | factory.go:296-303 | the copy starts with exactly the original's configuration |
| Factories.Factory.Clone | factory.go:296-303 | a fresh factory configured as the original plus the options; the original is not modified |
| Factories.Factory.CreateDataResponse | factory.go:305-307 | a fresh response with the given status and data, bound to the factory's formatter, whose only header is that formatter's content type |
| Factories.Factory.Success | factory.go:115-121 | status 200 with the data and the factory's formatter |
| Factories.Factory.Created | factory.go:124-136 | status 201; `Location` holds the location iff it is non-empty |
| Factories.Factory.Accepted | factory.go:139-145 | status 202 with the data |
| Factories.Factory.NoContent | factory.go:148-154 | status 204 with nil data |
| Factories.DefaultErrorTemplate | factory.go:310-317 | the envelope's code is `CodeFromStatus(status)`, its title the message, and its status string parses back to the status |
| Factories.Factory.BuildError | factory.go:310-317 | with the default builder, the error data is the default envelope for that status, message and details |
| Factories.Factory.Error | factory.go:157-169 | (corrected) the response carries the requested status; an empty message becomes the status text; with the default builder the envelope's status parses to the response's status |
| Factories.Factory.ErrorAsWritten | factory.go:157-169 | (as written) the envelope names the requested status but the response status is always 500 |
| Factories.Factory.NotFoundAsWritten | factory.go:219-221 | (as written) `NotFound` with the default error builder: the envelope's status is 404 while the response is served as 500 |
| Factories.InternalErrorDetails | factory.go:172-196 | details are absent iff verbosity is off; otherwise they hold "error" with the error text, plus "stack_trace" exactly when the error has a non-empty trace |
| Factories.Factory.InternalError | factory.go:172-196 | status 500, the fixed title "Internal server error", and the verbosity-dependent details |
| Factories.Factory.BadRequest | factory.go:199-201 | status 400; an empty message becomes "Bad Request" (the corrected `Error`; as written the response status is 500, see "## Findings") |
| Factories.Factory.Unauthorized | factory.go:204-206 | status 401; an empty message becomes "Unauthorized" (the corrected `Error`; as written the response status is 500, see "## Findings") |
| Factories.Factory.ServiceUnavailable | factory.go:209-211 | status 503; an empty message becomes "Service Unavailable" (the corrected `Error`; as written the response status is 500, see "## Findings") |
| Factories.Factory.Forbidden | factory.go:214-216 | status 403; an empty message becomes "Forbidden" (the corrected `Error`; as written the response status is 500, see "## Findings") |
| Factories.Factory.NotFound | factory.go:219-221 | status 404; an empty message becomes "Not Found" (the corrected `Error`; as written the response status is 500, see "## Findings") |
| Factories.Factory.Conflict | factory.go:224-226 | status 409; an empty message becomes "Conflict" (the corrected `Error`; as written the response status is 500, see "## Findings") |
| Factories.MessagesOfCount | factory.go:323-330 | the entries built for one field are one per message, with that field as pointer |
| Factories.AppendMessages | factory.go:324-330 | the inner loop appends exactly the field's entries after those already built |
| Factories.BuildValidationErrors | factory.go:320-337 | one entry per (field, message) pair, counted with multiplicity, with code and status for 422 |
| Factories.ValidationErrorsShape | factory.go:320-337 | every entry names an attribute and one of its messages, and nothing else |
| Factories.Factory.ValidationError | factory.go:229-241 | status 422; an empty message becomes "Validation failed"; with the default builder the envelope holds exactly one entry per (field, message) pair |
| Factories.Factory.Binary | factory.go:244-262 | status 200, binary, the closer stored, the stream pre-formatted with its size, and `Content-Type` taken from the file extension |
| Formatting.HtmlFormatter.constructor | formatter/html.go:27-29 | `NewHTML` starts without a template |
| Formatting.HtmlFormatter.WithTemplate | formatter/html.go:31-35 | stores the template and returns the same formatter |
| Formatting.TextFormattersContract | formatter/json.go:36-70 | JSON, XML and HTML all refuse a binary response with a 500 error; any success is a buffered stream whose size is its length under the formatter's own content type; their own errors are 500s; nil data gives "null" (size 4) in JSON and an empty body in XML |
| Formatting.XmlStartsWithProlog | formatter/xml.go:55-77 | non-nil XML output is the `xml.Header` prolog followed by exactly the encoder's bytes |
| Formatting.HtmlDefaultTemplate | formatter/html.go:51-73 | without a template, HTML succeeds exactly on strings and byte slices and emits their bytes |
| Formatting.BinaryContentType | formatter/binary.go:28-33 | the response's own content type when non-empty, otherwise the MIME type of the file extension; never empty |
| Formatting.BinaryFormat | formatter/binary.go:28-46 | an error from `Body()` is returned as is; otherwise the stream and size pass through unchanged |
| MimeTypes.MimeTypeFromExtension | response/mimetypes.go:135-141 | a mapped extension gives its type; any other gives `application/octet-stream` |
| MimeTypes.FallbackIffUnknown | response/mimetypes.go:84-141 | the fallback type comes back exactly for extensions not in the mapping |
| MimeTypes.JpegAliases | response/mimetypes.go:88-89 | ".jpg" and ".jpeg" give the same type |
| MimeTypes.HtmlAliases | response/mimetypes.go:105-106 | ".html" and ".htm" give the same type |
| MimeTypes.TiffAliases | response/mimetypes.go:113-114 | ".tif" and ".tiff" give the same type |
| MimeTypes.ExactLookup | response/mimetypes.go:84-131 | lookup is exact and keeps the dot: ".PNG" and "png" fall back |
| Codes.CodeFromStatus | codes.go:129-135 | a mapped status gives its code, any other the empty code |
| Codes.CodesRoundTrip | codes.go:79-125 | every mapped code identifies its status |
| Codes.CodesInjective | codes.go:79-125 | no two mapped statuses share a code |
| Codes.CodeEmptyIffUnmapped | codes.go:129-135 | the code is empty exactly for unmapped statuses |
| Codes.NotableCodes | codes.go:79-125 | 431 and 451 have no code; 413 is "PAYLOAD_TOO_LARGE" and 422 "UNPROCESSABLE_ENTITY" |
| Template.InternalErrorString | template.go:38-50 | "Error:\n" then the error; with a trace, "\nStack Trace:" then the trace then a blank line; the length is 7 + the error, plus 15 + the trace when there is one |
| Conv.DataToString | internal/conv/dataconv.go:5-14 | succeeds iff the data is a string or byte slice, and then yields its bytes unchanged |
| Errors.NewError | error.go:18-24 | the error carries the code and the message |
| Errors.WrapError | error.go:27-33 | the wrapping error carries the code and the new message |
| Writer.BinaryRegistry.SetDefaultBinaryFormatter | writer.go:195-207 | the registered producer is replaced |
| Writer.EffectiveFormatterChoice | writer.go:25-35 | the response's formatter, else the factory's; a binary response whose formatter cannot format binary gets the registered binary formatter if there is one; the result is always one of these three |
| Writer.ResponseHeadersProperties | writer.go:109-133 | the response's headers are added to the writer's; the response's content type beats the formatter's, and when both are empty it is not set; a binary response sets the file disposition iff it has a file name and the length iff its size is positive; a buffered body sets its length iff non-empty; a stated length parses back to the size |
| Writer.SetContentType | writer.go:115-120 | the writer's header gets the content type chosen by that rule |
| Writer.SetSizeHeaders | writer.go:123-133 | the writer's header gets the disposition and length chosen by that rule |
| Writer.HealthyBody | writer.go:139-156 | on a healthy connection: a positive size copies exactly that many bytes and a shorter stream is an EOF error; a size of zero or less copies the whole stream; a buffered body is written whole |
| Writer.WriteBody | writer.go:139-156 | the bytes the connection takes are appended and the copy's error is returned; no status is sent |
| Writer.WriteFormattedResponse | writer.go:107-157 | the headers are assembled, then `WriteHeader(status)` is called exactly once, then the body is delivered; the headers committed are those assembled |
| Writer.MinimalErrorOutcome | writer.go:160-180 | no error iff the whole message got through; every failure is an error with code 0 |
| Writer.WriteMinimalError | writer.go:160-180 | sets the plain-text UTF-8 content type, sends 500, writes "Internal Server Error" and reports the outcome |
| Writer.MinimalErrorFaults | writer.go:167-178 | a failing connection gives the wrapped "failed to write minimal error response"; a half-writing one gives the "partial write" error |
| Writer.WriteRecovery | writer.go:84-104 | after a formatting failure, only the minimal 500 is sent; after a write failure, the minimal 500 follows the error response; every branch returns an error, the original one only when recovery succeeded |
| Writer.WriteErrorResponse | writer.go:63-104 | always returns an error: the original one, "failed to format error response" or "failed to write formatted error response"; it sends the internal-error status and then the minimal 500 only if that write failed |
| Writer.Write | writer.go:24-60 | with a successful format, text or binary: the headers as assembled, one status sent, the body delivered and its error returned; with a failed format: an error is returned, and for a text formatter a 500 is the next status sent; the response's header is untouched unless the binary formatter ran its formatter. It requires that the source comes back: see `Writer.Write` under "## Left out" |
| Transport.HalvingCopyIsShortWrite | writer.go:139-146 | on a connection that takes half of each write, both the bounded and the unbounded copy fail with "short write" |
| Recorders.GuardedRecorder.constructor | handler.go:64-69 | a recorder starts not written, with status 0 |
| Recorders.GuardedRecorder.WriteHeader | handler.go:72-80 | only the first call is forwarded and recorded; later calls change nothing on the connection and keep the first status |
| Recorders.GuardedRecorder.Write | handler.go:83-92 | a write before any status commits 200 first; the bytes are forwarded and `written` stays true |
| Recorders.Perform | handler.go:72-92 | over any run of writes the connection's status is sent at most once (the first explicit status, or 200), and `written` holds iff something was done |
| Recorders.WrapHandler | handler.go:32-57 | the handler's response is written; if it fails before any commit, the internal-error response is written; if that too fails before a commit, a plain-text 500 goes straight to the connection. An error after a commit is only logged; at most one status is sent |
| Recorders.WriteFallback | handler.go:48-52 | the last-chance fallback sets the plain-text `Content-Type` as the one value, sends 500 and writes "Internal Server Error" to the bare connection |
| Recorders.Recorder.constructor | http/server.go:12-14 | `NewResponseRecorder` starts not written, with status 0 |
| Recorders.Recorder.WriteHeader | http/server.go:17-21 | every call is forwarded; the latest status is recorded and `written` is set (server.go:84-88 is the same) |
| Recorders.Recorder.Write | http/server.go:24-27 | sets `written`, keeps the status, and forwards the bytes returning the connection's result (server.go:91-94 is the same) |
| Chains.Chain | chain.go:25-34 | the result is `h` wrapped so that the first middleware listed is outermost; no middleware leaves `h` itself; exactly one layer per middleware |
| Chains.WrappedLayers | chain.go:26-31 | wrapping adds exactly one `ChainHandler` layer per middleware |
| Chains.OutermostFirst | chain.go:20-31 | handling through the chain calls the first middleware around the chain of the rest |
| Chains.PostProcessingOrder | chain.go:20-31 | middlewares that add a header after calling next add them in reverse listing order |
| Chains.ThreeMiddlewares | factory_benchmark_test.go:184-209 | with `X-MW-1`, `X-MW-2`, `X-MW-3` the headers come out as 3, 2, 1 |
| Chains.ServeMux.constructor | server.go:54-60 | a new mux has no middlewares and no routes |
| Chains.ServeMux.WithMiddleware | server.go:72-74 | appends the middlewares in argument order and keeps the existing ones |
| Chains.ServeMux.Handle | server.go:62-65 | registers the handler wrapped in the current middlewares |
| Negotiation.FirstKnown | middleware/negotiator.go:46-57 | the position of the first `Accept` entry whose trimmed, parameter-free form is in the table; no earlier entry is |
| Negotiation.SelectFromIsFirstKnown | middleware/negotiator.go:46-59 | the scan picks the first known entry in header order, with no quality weighting, or else the default |
| Negotiation.SelectFormatterSpec | middleware/negotiator.go:36-60 | an empty `Accept` gives the default; otherwise the first known entry's formatter; the result is always the default or a table value |
| Negotiation.ContentNegotiator | middleware/negotiator.go:19-33 | no selection: a fresh 406 "Not Acceptable" and next is not called; otherwise next's response, called once, with the chosen formatter and its content type and the same status and data (the corrected `Error`; as written the response status is 500, see "## Findings") |
| ContentTypeValidation.IsAllowedContentTypeSpec | middleware/content_type_validator.go:78-113 | allowed iff the content type is non-empty and some lower-cased, trimmed entry matches its lower-cased, trimmed, parameter-free media type; an empty list allows nothing; a match-anything entry allows any non-empty type |
| ContentTypeValidation.AnyEntryMatchesIffExists | middleware/content_type_validator.go:89-112 | the early-exit scan finds a match iff some entry matches |
| ContentTypeValidation.WildcardEntry | middleware/content_type_validator.go:99-104 | a type-wide wildcard entry matches every media type under its type |
| ContentTypeValidation.ContentTypeValidator.constructor | middleware/content_type_validator.go:28-43 | methods default to POST, PUT and PATCH and are upper-cased into the set; the message defaults to "Unsupported Media Type" |
| ContentTypeValidation.ContentTypeValidator.Handle | middleware/content_type_validator.go:46-72 | a request whose method is in the set, that is not an empty body allowed to skip, and whose content type is not allowed, gets a fresh 415 with the message and `Accept` listing the allowed types joined by ", ", and next is not called; anything else goes to next exactly once (the corrected `Error`; as written the response status is 500, see "## Findings") |
| ContentTypeCheck.ParametersIgnored | middleware/content_type.go:21-24 | parameters after the first ';' are dropped and a bare type is compared whole |
| ContentTypeCheck.CheckContentType | middleware/content_type.go:18-33 | a media type not exactly equal to the formatter's content type (an empty one included) gets a fresh 415 "Unsupported Media Type" without calling next; a match returns next's response (the corrected `Error`; as written the response status is 500, see "## Findings") |
| Compression.ClampQuality | middleware/brotli.go:19-24 | the quality is clamped into 0..11 and kept when already inside |
| Compression.NewBrotliCompressor | middleware/brotli.go:18-24 | the compressor's quality is always within 0..11 |
| Compression.SupportsBrotliSpec | middleware/brotli.go:39-43 | supported iff "br" occurs anywhere in `Accept-Encoding`; never without the header |
| Compression.BrotliHandle | middleware/brotli.go:25-36 | next is called exactly once and its response returned unchanged |
| Compression.AutoCompressorHandle | middleware/auto_compressor.go:20-36 | whichever branch is taken, gzip included, next is called exactly once and its response returned unchanged |
| Measurement.AlnumRun | middleware/measurement.go:33 | the placeholder name is the longest run of letters and digits |
| Measurement.CloseBrace | middleware/measurement.go:33 | the lazy pattern part ends at the first '}' and cannot cross a newline |
| Measurement.Rewrite | middleware/measurement.go:33 | the rewritten route is never longer than the original |
| Measurement.RewriteKeepsPrefix | middleware/measurement.go:46-48 | text before the first '{' is kept as is |
| Measurement.PlaceholderRewritten | middleware/measurement.go:33 | each `{name…}` placeholder becomes its name, and the rewriting carries on after it |
| Measurement.RewriteWithoutBraces | middleware/measurement.go:46-48 | a route with no '{' is unchanged |
| Measurement.RouteOf | middleware/measurement.go:41-48 | no pattern function gives ""; a pattern without '{' is reported as is |
| Measurement.MetricsService.Responded | middleware/measurement.go:50-55 | one more metrics record |
| Measurement.MeasurementHandle | middleware/measurement.go:35-60 | next is called once and its response returned; exactly one record is emitted with that response's status, the request method and the rewritten route |
| LegacyHandlers.WriteErrorCallback.WriteResponseError | handler/data_response.go:49-55 | the reported error is recorded |
| LegacyHandlers.DataResponseApiFunc | handler/data_response.go:12-57 | headers are copied before any status; nil data sends only the status; a marshal failure switches to the internal-error response, and a second failure sends a plain-text 500; a body write error is reported, wrapped, when a callback exists |
| LegacyHandlers.FormatWriter.Write | handler/handler.go:22-24 | each write attempt is recorded with its status and data |
| LegacyHandlers.NewHttpHandlerFunc | handler/handler.go:10-33 | headers are copied; a successful write does nothing more; after a failure the internal-error data is written with the original status, and then a plain-text 500 is always issued |
| Liveness.Lines | handler/liveness_probe.go:32-41 | the text is empty iff there are no errors, and otherwise ends in a newline |
| Liveness.LinesAppend | handler/liveness_probe.go:32-41 | the message text of a concatenated list is the two texts concatenated, so the order of insertion is kept |
| Liveness.LinesHead | handler/liveness_probe.go:32-41 | each message is followed by "\n" |
| Liveness.DeadStackedErrors.constructor | handler/liveness_probe.go:17-19 | starts with no errors |
| Liveness.DeadStackedErrors.Add | handler/liveness_probe.go:21-26 | adding nil changes nothing; any other error is appended (the same in handler/liveness.go:19-24) |
| Liveness.DeadStackedErrors.Error | handler/liveness_probe.go:32-41 | every message followed by a newline, in insertion order; "" iff no error was added (the same in handler/liveness.go:30-39) |
| Liveness.FailuresEmptyIff | handler/liveness_probe.go:69-83 | no failure is collected iff every visited check returns nil |
| Liveness.LivenessServiceRegistry.constructor | handler/liveness_probe.go:53-55 | starts with no checks |
| Liveness.LivenessServiceRegistry.RegisterFunc | handler/liveness_probe.go:57-60 | inserts or overwrites under the name and returns the registry |
| Liveness.LivenessServiceRegistry.Register | handler/liveness_probe.go:62-67 | registers the service's check under the name and returns the registry |
| Liveness.LivenessServiceRegistry.Alive | handler/liveness_probe.go:69-83 | every check is visited once, in some order; no error iff every check passes; otherwise the error lists each failure, wrapped with its name, in visiting order (handler/liveness.go:67-81 is the same) |
| Liveness.LivenessProbe | handler/liveness_probe.go:85-93 | a failure gives 503 with the error text; success gives 200 with nil data (the corrected `Error`; as written the response status is 500, see "## Findings") |
| Liveness.LivenessHandler | handler/liveness.go:83-93 | sets `text/plain`; a failure commits 503 with the error text, success commits 200 with no body |
| AppVersion.VersionStringParts | handler/app_version.go:17-25 | the text starts with "Name: " and the name, then ", Commit: ", and has exactly the labels' 51 characters besides the five fields |
| AppVersion.VersionFunc | handler/app_version.go:31-41 | plain-text UTF-8 and nosniff are set before 200 is committed; the body is the version text; on a write failure `http.Error` follows the 200 already sent |
| Headers.AddTwiceKeepsBoth | response/response.go:160-178 | two `Add`s of the same pair keep both copies, while two `Set`s leave one value |
| Headers.Header.AddAll | response/response.go:193-201 | the nested add loop, in any key order, yields the merge of the two maps |
| StrUtil.TrimSpaceIsInnerSlice | middleware/negotiator.go:47-54 | trimming removes only surrounding white space, leaves none at either end, and is idempotent |
| StrUtil.CaseFoldingIdempotent | middleware/content_type_validator.go:84-96 | case-folded text has no letter of the other case and folding again changes nothing |
| StrUtil.SplitJoinRoundTrip | middleware/negotiator.go:46 | splitting `Accept` at commas loses nothing: joining the pieces gives the header back |
| StrUtil.ItoaRoundTrip | factory.go:310-317 | a status written with `strconv.Itoa` parses back to the same number |
| StrUtil.CutAt | middleware/content_type.go:21-24 | the cut text is a prefix without the separator, the whole text iff the separator is absent, and otherwise the separator follows it |

## Left out

- Logging: every `logger.Error` call is dropped, because it has no observable result. The log-only branch of `WrapHandler` and of `DataResponseApiFunc` without a callback do nothing.
- Time and context: the `context.Context` arguments, the context formatter lookup and measurement's `Elapsed` field are not modelled.
- Stack traces: `pkg/errors` traces are an opaque string field of the error.
- Factories.InternalErrorDetails: `errors.As` unwrapping is not modelled. Errors are flat in the model (a wrapped foreign error becomes an external error with its text), so a library error wrapped by another error is not found and its stack trace is not reported.
- Encoders, templates and custom formatters are function values (`Formatting.Codecs`, the legacy `marshal`, the factory's custom builders). Their byte output is not specified.
- `io.Copy` chunking is not modelled: a half-writing connection loses half of the whole copy, not half of each 32 KiB chunk.
- Case folding and white space are ASCII only, and `http.Header` key canonicalisation is not modelled: keys are taken as already canonical.
- ValueResponses.Body: requires `BodyTerminates`. The binary formatter calls `Body()` again, so a binary-formatted response without a stream would recurse forever in the source, and the model does not follow it.
- The value response's `WriteHeader` (response.go:38-40) has a value receiver and no effect the caller can observe, so it has no member.
- The value response's `WithCacheControl`, `WithCORS` and `WithSecurityHeaders` (response.go:191-214) are the pointer response's builders over `WithHeader`; only the pointer versions are modelled.
- The validator presets `JSONOnly`, `XMLOnly`, `JSONOrXML` and `APIContentTypes` are option values only; they are not modelled.
- `Factory.File` (factory.go:265-286) opens and stats a file and is not modelled; `Factory.Binary` does not record the file name on the response.
- LegacyHandlers.DataResponseApiFunc: the encoder's own header side effects are not modelled; the marshal function sees the merged headers but returns only bytes.
- LegacyHandlers.NewHttpHandlerFunc: what the `FormatWriter` puts on the wire is not modelled, only which writes it was asked to make.
- Liveness.LivenessServiceRegistry.Alive: the stacked-errors object is returned as an error carrying its text, not as the object itself.
- The getters that only return a field (`Written`, `StatusCode`, `Data`, `Filename`, `Size`, `Logger`) are the fields themselves.
- Writer.Write: on a failed format it states that an error is returned and, for a text formatter, that the next status sent is 500. The exact error and headers of that path are stated by `Writer.WriteErrorResponse`, and are not repeated here; for the binary formatter the error path is not stated beyond an error being returned.
- Writer.Write: requires `Writer.Terminates`. The binary formatter calls `Body()`, which calls the response's formatter, so a binary-formatted response without a stream whose own formatter is the binary one recurses forever in the source. When binary formatting fails, `writeErrorResponse` formats the factory's internal-error response with the same binary formatter; that response has no stream and carries the factory's formatter, so a factory whose formatter is the binary one recurses forever too. The model requires neither case to arise.
- Recorders.WrapHandler: the writes of the handler's response and of the internal-error response are given as runs of recorder steps with their outcome, instead of being produced by `Writer.Write`. The header writes those runs make are not modelled, so of the writer's header only the fallback's plain-text `Content-Type` is stated.
- Readiness and startup probes, panic recovery, the router adapters, the commented-out compression file and the example programs are not part of this model.

## Findings

| source | as written | input that shows it | evidently intended | confidence | as-written member | corrected member |
|---|---|---|---|---|---|---|
| factory.go:157-169 | `Error` builds the envelope with the requested status but creates the response with status 500, so every helper built on it (`BadRequest`, `NotFound`, `Conflict`, …) is served as 500 | `NotFound(ctx, "x")`: envelope status "404", response status 500 | the response carries the requested status, matching its envelope | high; not executed | Factories.Factory.ErrorAsWritten | Factories.Factory.Error |
