/** The error-envelope shapes of template.go and `InternalError.String`. */
module Template {
  import opened Wrappers

  /** One entry of the `errors` list of the envelope. */
  datatype TemplateError = TemplateError(pointer: string, nodeID: string, portID: string, detail: string)

  /** The default error envelope `{code, status, title, details?, errors?}`.
      `details` is the only shape factory.go ever puts there: a string map, or nil. */
  datatype Template = Template(
    code: string,
    status: string,
    title: string,
    details: Option<map<string, string>>,
    errors: seq<TemplateError>)

  datatype InternalError = InternalError(error: string, stackTrace: string)

  const ErrorPrefix := "Error:\n"
  const StackTraceHeading := "\nStack Trace:"

  /** `InternalError.String`: successive writes into a string builder. */
  method InternalErrorString(ie: InternalError) returns (s: string)
    ensures |s| == 7 + |ie.error| + (if ie.stackTrace == "" then 0 else 15 + |ie.stackTrace|)
    ensures s[..|ErrorPrefix|] == ErrorPrefix
    ensures s[|ErrorPrefix|..|ErrorPrefix| + |ie.error|] == ie.error
    ensures ie.stackTrace == "" ==> s == ErrorPrefix + ie.error
    ensures ie.stackTrace != "" ==>
              s[|ErrorPrefix| + |ie.error|..] == StackTraceHeading + ie.stackTrace + "\n\n"
  {
    var sb := "";
    sb := sb + ErrorPrefix;
    sb := sb + ie.error;
    if |ie.stackTrace| > 0 {
      sb := sb + StackTraceHeading;
      sb := sb + ie.stackTrace;
      sb := sb + "\n\n";
    }
    s := sb;
  }
}
