/** handler/app_version.go: the build information endpoint. */
module AppVersion {
  import opened Headers
  import opened Wrappers
  import T = Transport
  import Status = HttpStatus

  datatype VersionData = VersionData(gitCommit: string, gitBranch: string, version: string, buildDate: string, name: string)

  const NamePart := "Name: "
  const CommitPart := ", Commit: "
  const BranchPart := ", branch: "
  const VersionPart := ", version: "
  const DatePart := ", build date: "

  /** `String()`: the five fields in a fixed order behind fixed labels. */
  function VersionString(d: VersionData): (s: string)
  {
    NamePart + d.name + AfterName(d)
  }

  /** The labelled fields that follow the name. */
  function AfterName(d: VersionData): string {
    CommitPart + d.gitCommit + BranchPart + d.gitBranch + VersionPart + d.version + DatePart + d.buildDate
  }

  /** The text starts with the name label and the name, the commit label
      follows right after, and its length is the 51 characters of the
      labels plus the lengths of the fields. */
  lemma VersionStringParts(d: VersionData)
    ensures var s := VersionString(d);
            s[..|NamePart| + |d.name|] == NamePart + d.name
            && s[|NamePart| + |d.name|..][..|CommitPart|] == CommitPart
            && |s| == 51 + |d.name| + |d.gitCommit| + |d.gitBranch| + |d.version| + |d.buildDate|
  {
    var s := VersionString(d);
    assert s[|NamePart| + |d.name|..] == AfterName(d);
  }

  const InternalServerErrorText := "Internal Server Error"

  /** `VersionFunc`'s handler: a 200 with UTF-8 plain text and `nosniff`,
      then the version text; if that write fails, `http.Error` follows,
      which can no longer change the committed status. */
  method VersionFunc(data: VersionData, w: T.Sink)
    requires w.committed.None?
    modifies w, w.header
    ensures w.committed == Some(Status.OK)
    ensures GetOf(w.sent, ContentType) == ContentTypePlainUtf8 && GetOf(w.sent, XContentTypeOptions) == NoSniff
    ensures w.failure.None? ==> w.calls == old(w.calls) + [Status.OK]
                                && w.body == old(w.body) + w.Taken(VersionString(data))
    ensures w.failure.Some? ==> w.calls == old(w.calls) + [Status.OK, Status.InternalServerError]
                                && w.body == old(w.body)
  {
    w.header.Set(ContentType, ContentTypePlainUtf8);
    w.header.Set(XContentTypeOptions, NoSniff);
    w.WriteHeader(Status.OK);
    var n, err := w.Write(VersionString(data));
    if err.Some? {
      ghost var calls := w.calls;
      w.Error(InternalServerErrorText, Status.InternalServerError);
      assert w.calls == calls + [Status.InternalServerError];
      T.CallsSnoc(old(w.calls), Status.OK, Status.InternalServerError);
    }
  }
}
