/** response/mimetypes.go: media types and the extension lookup. A `MimeType`
    is its string, so `MimeType.String` is the identity and has no member. */
module MimeTypes {
  const PlainText := "text/plain; charset=utf-8"
  const Html := "text/html; charset=utf-8"
  const Css := "text/css; charset=utf-8"
  const JavaScript := "application/javascript; charset=utf-8"
  const Xml := "application/xml; charset=utf-8"
  const Csv := "text/csv; charset=utf-8"
  const Json := "application/json; charset=utf-8"
  const OctetStream := "application/octet-stream"
  const Jpeg := "image/jpeg"
  const Png := "image/png"
  const Tiff := "image/tiff"

  /** `MimeTypeMapping`: extensions, dot included, to media types. */
  const MimeTypeMapping: map<string, string> := map[
    ".txt" := "text/plain; charset=utf-8",
    ".html" := "text/html; charset=utf-8",
    ".htm" := "text/html; charset=utf-8",
    ".css" := "text/css; charset=utf-8",
    ".js" := "application/javascript; charset=utf-8",
    ".xml" := "application/xml; charset=utf-8",
    ".csv" := "text/csv; charset=utf-8",
    ".json" := "application/json; charset=utf-8",
    ".pdf" := "application/pdf",
    ".zip" := "application/zip",
    ".tar" := "application/x-tar",
    ".gz" := "application/gzip",
    ".rar" := "application/x-rar-compressed",
    ".7z" := "application/x-7z-compressed",
    ".wasm" := "application/wasm",
    ".jpg" := "image/jpeg",
    ".jpeg" := "image/jpeg",
    ".png" := "image/png",
    ".gif" := "image/gif",
    ".webp" := "image/webp",
    ".svg" := "image/svg+xml",
    ".ico" := "image/x-icon",
    ".bmp" := "image/bmp",
    ".tif" := "image/tiff",
    ".tiff" := "image/tiff",
    ".mp3" := "audio/mpeg",
    ".wav" := "audio/wav",
    ".ogg" := "audio/ogg",
    ".aac" := "audio/aac",
    ".flac" := "audio/flac",
    ".mp4" := "video/mp4",
    ".webm" := "video/webm",
    ".mpeg" := "video/mpeg",
    ".avi" := "video/x-msvideo",
    ".mov" := "video/quicktime",
    ".mkv" := "video/x-matroska",
    ".flv" := "video/x-flv"
  ]

  /** `MimeTypeFromExtension`: the mapped type, octet-stream otherwise. */
  function MimeTypeFromExtension(ext: string): (m: string)
    ensures ext in MimeTypeMapping ==> m == MimeTypeMapping[ext]
    ensures ext !in MimeTypeMapping ==> m == OctetStream
    ensures m in MimeTypeMapping.Values || m == OctetStream
  {
    if ext in MimeTypeMapping then MimeTypeMapping[ext] else OctetStream
  }

  /** No mapped extension falls back to octet-stream: the fallback is
      returned exactly for unknown extensions. */
  lemma {:induction false} FallbackIffUnknown(ext: string)
    ensures MimeTypeFromExtension(ext) == OctetStream <==> ext !in MimeTypeMapping
  {
    if ext in MimeTypeMapping {
      assert MimeTypeMapping[ext] != OctetStream;
    }
  }

  /** Aliases share a type: .jpg and .jpeg, .html and .htm, .tif and .tiff. */
  lemma {:induction false} JpegAliases()
    ensures MimeTypeFromExtension(".jpg") == MimeTypeFromExtension(".jpeg") == Jpeg
  {
    Maps(".jpg", Jpeg);
    Maps(".jpeg", Jpeg);
  }

  lemma {:induction false} HtmlAliases()
    ensures MimeTypeFromExtension(".html") == MimeTypeFromExtension(".htm") == Html
  {
    Maps(".html", Html);
    Maps(".htm", Html);
  }

  lemma {:induction false} TiffAliases()
    ensures MimeTypeFromExtension(".tif") == MimeTypeFromExtension(".tiff") == Tiff
  {
    Maps(".tif", Tiff);
    Maps(".tiff", Tiff);
  }

  /** The lookup is exact: upper case and a missing dot fall back to
      octet-stream. */
  lemma {:induction false} ExactLookup()
    ensures MimeTypeFromExtension(".png") == Png
    ensures MimeTypeFromExtension(".PNG") == OctetStream
    ensures MimeTypeFromExtension("png") == OctetStream
  {
    Maps(".png", Png);
    UpperCasePngUnknown();
    BarePngUnknown();
  }

  /** One entry of the table, looked up on its own. */
  lemma Maps(ext: string, m: string)
    requires ext in MimeTypeMapping && MimeTypeMapping[ext] == m
    ensures MimeTypeFromExtension(ext) == m
  {
  }

  lemma UpperCasePngUnknown()
    ensures ".PNG" !in MimeTypeMapping
  {
  }

  lemma BarePngUnknown()
    ensures "png" !in MimeTypeMapping
  {
  }
}
