/** middleware/negotiator.go: picks the formatter from the `Accept` header
    by the first listed media type the table knows. There is no quality
    weighting: `;q=` parameters are cut off, not compared. */
module Negotiation {
  import opened Wrappers
  import opened Headers
  import opened Formatting
  import opened Requests
  import StrUtil
  import F = Factories
  import P = Response
  import Status = HttpStatus

  /** The formatter table. A nil formatter stored under a media type is
      possible in Go and is what makes a 406 reachable. */
  type FormatterTable = map<string, Option<Formatter>>

  /** One `Accept` entry as looked up: trimmed, cut at its first `;`,
      trimmed again. */
  function Candidate(part: string): string {
    StrUtil.TrimSpace(StrUtil.CutAt(StrUtil.TrimSpace(part), ';'))
  }

  /** The position of the first entry at or after `k` whose candidate the
      table holds, or -1. */
  function FirstKnownFrom(parts: seq<string>, table: FormatterTable, k: nat): (i: int)
    requires k <= |parts|
    ensures i == -1 || (k <= i < |parts| && Candidate(parts[i]) in table)
    ensures forall j :: k <= j < |parts| && (i < 0 || j < i) ==> Candidate(parts[j]) !in table
    decreases |parts| - k
  {
    if k == |parts| then -1
    else if Candidate(parts[k]) in table then k
    else FirstKnownFrom(parts, table, k + 1)
  }

  /** The position of the first entry whose candidate the table holds, or
      -1. */
  function FirstKnown(parts: seq<string>, table: FormatterTable): (i: int)
    ensures -1 <= i < |parts|
    ensures i >= 0 ==> Candidate(parts[i]) in table
    ensures forall j :: 0 <= j < |parts| && (i < 0 || j < i) ==> Candidate(parts[j]) !in table
  {
    FirstKnownFrom(parts, table, 0)
  }

  /** `selectFormatter`'s loop from entry `k` on, in header order: the first
      entry found in the table decides. */
  function SelectFrom(parts: seq<string>, table: FormatterTable, default: Option<Formatter>, k: nat): Option<Formatter>
    requires k <= |parts|
    decreases |parts| - k
  {
    if k == |parts| then default
    else if Candidate(parts[k]) in table then table[Candidate(parts[k])]
    else SelectFrom(parts, table, default, k + 1)
  }

  function SelectFormatter(accept: string, table: FormatterTable, default: Option<Formatter>): Option<Formatter> {
    if accept == "" then default
    else SelectFrom(StrUtil.Split(accept, ','), table, default, 0)
  }

  lemma {:induction false} SelectFromIsFirstKnown(parts: seq<string>, table: FormatterTable, default: Option<Formatter>, k: nat)
    requires k <= |parts|
    ensures var i := FirstKnownFrom(parts, table, k);
            SelectFrom(parts, table, default, k) == if i < 0 then default else table[Candidate(parts[i])]
    decreases |parts| - k
  {
    if k < |parts| && Candidate(parts[k]) !in table {
      SelectFromIsFirstKnown(parts, table, default, k + 1);
    }
  }

  /** The selection is the table entry of the first listed media type the
      table knows, earlier entries being unknown; with none known, or an
      empty header, it is the default. Either way it is the default or a
      table value. */
  lemma SelectFormatterSpec(accept: string, table: FormatterTable, default: Option<Formatter>)
    ensures accept == "" ==> SelectFormatter(accept, table, default) == default
    ensures accept != "" ==>
              var parts := StrUtil.Split(accept, ',');
              var i := FirstKnown(parts, table);
              && SelectFormatter(accept, table, default) == (if i < 0 then default else table[Candidate(parts[i])])
              && (forall j :: 0 <= j < |parts| && (i < 0 || j < i) ==> Candidate(parts[j]) !in table)
    ensures SelectFormatter(accept, table, default) == default
            || SelectFormatter(accept, table, default) in table.Values
  {
    if accept != "" {
      var parts := StrUtil.Split(accept, ',');
      SelectFromIsFirstKnown(parts, table, default, 0);
    }
  }

  const NotAcceptableMessage := "Not Acceptable"

  /** `ContentNegotiator`'s handler: a 406 error response without calling
      the next handler when the selection is nil; otherwise the next
      handler's response, bound to the chosen formatter. */
  method ContentNegotiator(table: FormatterTable, req: Request, f: F.Factory, next: Next) returns (r: P.DataResponse)
    requires f.Valid()
    modifies next, next.reply, next.reply.header
    ensures var chosen := SelectFormatter(HeaderOf(req, Accept), table, f.formatter);
            && (chosen.None? ==>
                  fresh(r) && r.statusCode == Status.NotAcceptable && next.calls == old(next.calls)
                  && r.data == f.BuildError(Status.NotAcceptable, NotAcceptableMessage, None))
            && (chosen.Some? ==>
                  r == next.reply && next.calls == old(next.calls) + 1
                  && r.formatter == chosen && r.ContentType() == ContentTypeOf(chosen.value)
                  && r.statusCode == old(next.reply.statusCode) && r.data == old(next.reply.data))
  {
    var chosen := SelectFormatter(HeaderOf(req, Accept), table, f.formatter);
    if chosen.None? {
      r := f.Error(Status.NotAcceptable, NotAcceptableMessage);
      return;
    }
    r := next.Handle();
    r := r.WithFormatter(chosen.value);
  }
}
