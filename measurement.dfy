/** middleware/measurement.go: reports each response to a metrics
    service, under its route pattern with placeholders reduced to their
    names. The regular expression `{([a-zA-Z0-9]+).*?}` and Go's
    `ReplaceAllString(route, "$1")` are written out as `Rewrite`. */
module Measurement {
  import opened Wrappers
  import opened Requests
  import F = Factories
  import P = Response

  predicate IsAlnum(c: char) {
    'a' <= c <= 'z' || 'A' <= c <= 'Z' || '0' <= c <= '9'
  }

  /** The length of the run of letters and digits at the start of `s`: the
      greedy `[a-zA-Z0-9]+`. */
  function AlnumRun(s: string): (n: nat)
    ensures n <= |s|
    ensures forall i :: 0 <= i < n ==> IsAlnum(s[i])
    ensures n == |s| || !IsAlnum(s[n])
  {
    if s != [] && IsAlnum(s[0]) then 1 + AlnumRun(s[1..]) else 0
  }

  /** Where the lazy `.*?}` stops in `s`: the index of the first `}`, or
      `None` when a newline (which `.` does not match) or the end comes
      first. */
  function CloseBrace(s: string): (r: Option<nat>)
    ensures r.Some? ==> r.value < |s| && s[r.value] == '}'
    ensures r.Some? ==> forall i :: 0 <= i < r.value ==> s[i] != '}' && s[i] != '\n'
    ensures r.None? ==> forall i :: 0 <= i < |s| && s[i] == '}' ==> exists j :: 0 <= j < i && s[j] == '\n'
  {
    if s == [] then None
    else if s[0] == '}' then Some(0)
    else if s[0] == '\n' then None
    else match CloseBrace(s[1..])
      case None => (assert forall i :: 1 <= i < |s| ==> s[i] == s[1..][i - 1]; None)
      case Some(k) => Some(k + 1)
  }

  /** A placeholder starting at the head of `s`: its name's length and the
      index of its closing brace. */
  function PlaceholderAt(s: string): (r: Option<(nat, nat)>)
    ensures r.Some? ==> var (n, close) := r.value;
              |s| > 0 && s[0] == '{' && 1 <= n && 1 + n <= close < |s| && s[close] == '}'
  {
    if s == [] || s[0] != '{' then None
    else
      var n := AlnumRun(s[1..]);
      if n == 0 then None
      else match CloseBrace(s[1 + n..])
        case None => None
        case Some(k) => Some((n, 1 + n + k))
  }

  /** `ReplaceAllString(route, "$1")`: scanning left to right, each match
      is replaced by its name and the scan resumes after its brace. */
  function Rewrite(s: string): (r: string)
    ensures |r| <= |s|
    decreases |s|
  {
    if s == [] then []
    else match PlaceholderAt(s)
      case Some((n, close)) => s[1..1 + n] + Rewrite(s[close + 1..])
      case None => [s[0]] + Rewrite(s[1..])
  }

  /** Text before the first `{` is copied unchanged. */
  lemma {:induction false} RewriteKeepsPrefix(prefix: string, rest: string)
    requires '{' !in prefix
    ensures Rewrite(prefix + rest) == prefix + Rewrite(rest)
    decreases |prefix|
  {
    if prefix != [] {
      var s := prefix + rest;
      assert s[0] == prefix[0] && s[1..] == prefix[1..] + rest;
      assert PlaceholderAt(s) == None;
      assert Rewrite(s) == [s[0]] + Rewrite(s[1..]);
      RewriteKeepsPrefix(prefix[1..], rest);
      assert [prefix[0]] + (prefix[1..] + Rewrite(rest)) == prefix + Rewrite(rest);
    } else {
      assert prefix + rest == rest;
    }
  }

  /** A route containing no `{` is reported as it is. */
  lemma RewriteWithoutBraces(route: string)
    requires '{' !in route
    ensures Rewrite(route) == route
  {
    RewriteKeepsPrefix(route, []);
    assert route + [] == route;
  }

  /** One placeholder `{name...}`: a non-empty alphanumeric name, then any
      text up to the first `}` with no newline (and not continuing the
      name), becomes `name`, and the text after it is rewritten in turn. */
  lemma PlaceholderRewritten(prefix: string, name: string, pattern: string, rest: string)
    requires '{' !in prefix
    requires name != [] && forall i :: 0 <= i < |name| ==> IsAlnum(name[i])
    requires pattern == [] || !IsAlnum(pattern[0])
    requires '}' !in pattern && '\n' !in pattern
    ensures Rewrite(prefix + ("{" + name + pattern + "}") + rest) == prefix + name + Rewrite(rest)
  {
    var s := ("{" + name + pattern + "}") + rest;
    RewriteKeepsPrefix(prefix, s);
    PlaceholderHead(name, pattern, rest);
    assert prefix + ("{" + name + pattern + "}") + rest == prefix + s;
  }

  /** The placeholder at the head of the text is found and replaced. */
  lemma PlaceholderHead(name: string, pattern: string, rest: string)
    requires name != [] && forall i :: 0 <= i < |name| ==> IsAlnum(name[i])
    requires pattern == [] || !IsAlnum(pattern[0])
    requires '}' !in pattern && '\n' !in pattern
    ensures Rewrite(("{" + name + pattern + "}") + rest) == name + Rewrite(rest)
  {
    var s := ("{" + name + pattern + "}") + rest;
    PlaceholderFound(name, pattern, rest);
    var close := 1 + |name| + |pattern|;
    assert s[1..1 + |name|] == name;
    assert s[close + 1..] == rest;
  }

  lemma PlaceholderFound(name: string, pattern: string, rest: string)
    requires name != [] && forall i :: 0 <= i < |name| ==> IsAlnum(name[i])
    requires pattern == [] || !IsAlnum(pattern[0])
    requires '}' !in pattern && '\n' !in pattern
    ensures PlaceholderAt(("{" + name + pattern + "}") + rest) == Some((|name|, 1 + |name| + |pattern|))
  {
    var s := ("{" + name + pattern + "}") + rest;
    var tail := pattern + "}" + rest;
    assert s[1..] == name + tail;
    AlnumRunOf(name, tail);
    assert s[1 + |name|..] == tail;
    CloseBraceOf(pattern, rest);
  }

  lemma {:induction false} AlnumRunOf(name: string, rest: string)
    requires forall i :: 0 <= i < |name| ==> IsAlnum(name[i])
    requires rest == [] || !IsAlnum(rest[0])
    ensures AlnumRun(name + rest) == |name|
    decreases |name|
  {
    if name != [] {
      assert (name + rest)[1..] == name[1..] + rest;
      AlnumRunOf(name[1..], rest);
    } else {
      assert name + rest == rest;
    }
  }

  lemma {:induction false} CloseBraceOf(pattern: string, rest: string)
    requires '}' !in pattern && '\n' !in pattern
    ensures CloseBrace(pattern + "}" + rest) == Some(|pattern|)
    decreases |pattern|
  {
    var s := pattern + "}" + rest;
    if pattern == [] {
      assert s[0] == '}';
    } else {
      assert s[0] == pattern[0];
      assert s[1..] == pattern[1..] + "}" + rest;
      CloseBraceOf(pattern[1..], rest);
    }
  }

  /** What `Responded` receives; the elapsed time is not modelled. */
  datatype MetricsData = MetricsData(statusCode: int, verb: string, route: string)

  /** A `MetricsService`, reduced to the reports it has received. */
  class MetricsService {
    var responded: seq<MetricsData>

    constructor()
      ensures responded == []
    {
      responded := [];
    }

    method Responded(data: MetricsData)
      modifies this
      ensures responded == old(responded) + [data]
    {
      responded := responded + [data];
    }
  }

  /** The matched route pattern, or `None` for a nil `patternFunc`. */
  type PatternFunc = Option<Request -> string>

  /** The route reported: empty without a `patternFunc`, otherwise its
      pattern with the placeholders rewritten. */
  function RouteOf(req: Request, patternFunc: PatternFunc): (route: string)
    ensures patternFunc.None? ==> route == ""
    ensures patternFunc.Some? && '{' !in patternFunc.value(req) ==> route == patternFunc.value(req)
  {
    match patternFunc
    case None => ""
    case Some(pf) =>
      var pattern := pf(req);
      if |pattern| > 0 then
        RewriteKeepsPlainRoute(pattern);
        Rewrite(pattern)
      else pattern
  }

  lemma RewriteKeepsPlainRoute(route: string)
    ensures '{' !in route ==> Rewrite(route) == route
  {
    if '{' !in route {
      RewriteWithoutBraces(route);
    }
  }

  /** `Measurement`'s handler: calls `next` once, reports its status, the
      request method and the route exactly once, and returns the response
      unchanged. */
  method MeasurementHandle(serv: MetricsService, patternFunc: PatternFunc, req: Request, f: F.Factory, next: Next)
    returns (r: P.DataResponse)
    modifies serv, next
    ensures r == next.reply && next.calls == old(next.calls) + 1
    ensures serv.responded == old(serv.responded) + [MetricsData(r.statusCode, req.verb, RouteOf(req, patternFunc))]
  {
    r := next.Handle();
    var route := "";
    if patternFunc.Some? {
      route := patternFunc.value(req);
    }
    if |route| > 0 {
      route := Rewrite(route);
    }
    serv.Responded(MetricsData(r.statusCode, req.verb, route));
  }
}
