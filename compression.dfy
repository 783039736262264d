/** middleware/brotli.go and middleware/auto_compressor.go. Neither
    compresses anything: both pass the next handler's response through. */
module Compression {
  import opened Headers
  import opened Requests
  import StrUtil
  import F = Factories
  import P = Response

  const MaxQuality := 11
  const AutoQuality := 6

  /** The quality `BrotliCompressor` keeps: clamped into [0, 11]. */
  function ClampQuality(quality: int): (q: int)
    ensures 0 <= q <= MaxQuality
    ensures 0 <= quality <= MaxQuality ==> q == quality
    ensures quality < 0 ==> q == 0
    ensures quality > MaxQuality ==> q == MaxQuality
  {
    if quality < 0 then 0
    else if quality > MaxQuality then MaxQuality
    else quality
  }

  /** `supportsBrotli`: a plain substring test on `Accept-Encoding`. */
  predicate SupportsBrotli(req: Request) {
    StrUtil.Contains(HeaderOf(req, AcceptEncoding), "br")
  }

  /** Brotli is reported as supported exactly when "br" occurs somewhere in
      the first `Accept-Encoding` value, also inside a longer token, and
      never for a request without one. */
  lemma SupportsBrotliSpec(req: Request)
    ensures SupportsBrotli(req) <==> exists i :: StrUtil.OccursAt(HeaderOf(req, AcceptEncoding), "br", i)
    ensures HeaderOf(req, AcceptEncoding) == "" ==> !SupportsBrotli(req)
  {
    StrUtil.ContainsIffOccurs(HeaderOf(req, AcceptEncoding), "br");
  }

  /** The middleware `BrotliCompressor(quality)` builds. */
  datatype BrotliCompressor = BrotliCompressor(quality: int)

  function NewBrotliCompressor(quality: int): (b: BrotliCompressor)
    ensures 0 <= b.quality <= MaxQuality
    ensures 0 <= quality <= MaxQuality ==> b.quality == quality
  {
    BrotliCompressor(ClampQuality(quality))
  }

  /** Its handler: both branches call `next` once and return its response
      untouched, with no `Content-Encoding`. */
  method BrotliHandle(b: BrotliCompressor, req: Request, f: F.Factory, next: Next) returns (r: P.DataResponse)
    modifies next
    ensures r == next.reply && next.calls == old(next.calls) + 1
  {
    if !SupportsBrotli(req) {
      r := next.Handle();
      return;
    }
    r := next.Handle();
  }

  /** `AutoCompressor`'s handler: "br" goes through `BrotliCompressor(6)`,
      anything else (gzip included, its branch being disabled) straight to
      `next`; either way the response is `next`'s. */
  method AutoCompressorHandle(req: Request, f: F.Factory, next: Next) returns (r: P.DataResponse)
    modifies next
    ensures r == next.reply && next.calls == old(next.calls) + 1
  {
    if StrUtil.Contains(HeaderOf(req, AcceptEncoding), "br") {
      var b := NewBrotliCompressor(AutoQuality);
      r := BrotliHandle(b, req, f, next);
      return;
    }
    r := next.Handle();
  }
}
