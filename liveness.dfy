/** handler/liveness_probe.go and handler/liveness.go (two copies of the
    same aggregator): health checks whose failures are collected into one
    newline-separated error. The request context is not modelled. */
module Liveness {
  import opened Wrappers
  import opened Errors
  import opened Headers
  import F = Factories
  import P = Response
  import T = Transport
  import Conv
  import Status = HttpStatus

  /** One failure's line: its message and a newline. */
  function Line(e: Error): (line: string)
    ensures |line| > 0 && line[|line| - 1] == '\n'
  {
    Text(e) + "\n"
  }

  /** The text `Error()` builds: each message followed by a newline. */
  function Lines(errors: seq<Error>): (text: string)
    ensures text == "" <==> errors == []
    ensures errors != [] ==> text[|text| - 1] == '\n'
  {
    if errors == [] then "" else Lines(errors[..|errors| - 1]) + Line(errors[|errors| - 1])
  }

  lemma LinesSnoc(errors: seq<Error>, e: Error)
    ensures Lines(errors + [e]) == Lines(errors) + Line(e)
  {
    assert (errors + [e])[..|errors|] == errors;
  }

  /** One more error of a list adds its line. */
  lemma LinesPrefix(errors: seq<Error>, i: nat)
    requires i < |errors|
    ensures Lines(errors[..i + 1]) == Lines(errors[..i]) + Line(errors[i])
  {
    assert errors[..i + 1][..i] == errors[..i];
  }

  /** Joining two lists joins their texts. */
  lemma {:induction false} LinesAppend(a: seq<Error>, b: seq<Error>)
    ensures Lines(a + b) == Lines(a) + Lines(b)
    decreases |b|
  {
    if b == [] {
      assert a + b == a;
    } else {
      var init, last := b[..|b| - 1], b[|b| - 1];
      SplitLast(a, b);
      LinesSnoc(a + init, last);
      LinesSnoc(init, last);
      LinesAppend(a, init);
      ConcatAssoc(Lines(a), Lines(init), Line(last));
    }
  }

  lemma SplitLast(a: seq<Error>, b: seq<Error>)
    requires b != []
    ensures b == b[..|b| - 1] + [b[|b| - 1]]
    ensures a + b == (a + b[..|b| - 1]) + [b[|b| - 1]]
  {
  }

  lemma ConcatAssoc(x: string, y: string, z: string)
    ensures (x + y) + z == x + (y + z)
  {
  }

  /** One error's line sits at the start of the text of a list it heads. */
  lemma LinesHead(e: Error, rest: seq<Error>)
    ensures Lines([e] + rest) == Text(e) + "\n" + Lines(rest)
  {
    var one: seq<Error> := [e];
    assert one[..0] == [];
    assert Lines(one) == Line(e);
    LinesAppend(one, rest);
  }

  /** `DeadStackedError(s)`: the failures collected so far. */
  class DeadStackedErrors {
    var errors: seq<Error>

    constructor()
      ensures errors == []
    {
      errors := [];
    }

    /** `Add`: a nil error is ignored. */
    method Add(err: Option<Error>)
      modifies this
      ensures errors == if err.None? then old(errors) else old(errors) + [err.value]
    {
      if err.None? {
        return;
      }
      errors := errors + [err.value];
    }

    predicate HasErrors()
      reads this
    {
      |errors| > 0
    }

    /** `Error()`: empty without errors, otherwise every message on a line
        of its own. */
    method Error() returns (text: string)
      ensures text == Lines(errors)
      ensures text == "" <==> !HasErrors()
    {
      var es := errors;
      text := "";
      var i := 0;
      while i < |es|
        invariant 0 <= i <= |es|
        invariant text == Lines(es[..i])
      {
        LinesPrefix(es, i);
        text := text + Line(es[i]);
        i := i + 1;
      }
      assert es[..i] == es;
    }
  }

  /** A registered check: `nil` when the service is alive. */
  type HandleFunc = () -> Option<Error>

  /** A `LivenessService`, known through its `Alive`. */
  datatype LivenessService = LivenessService(alive: HandleFunc)

  /** The wrapped failures of the checks named in `names`, in that order. */
  function Failures(handles: map<string, HandleFunc>, names: seq<string>): (fs: seq<Error>)
    requires forall n :: n in names ==> n in handles
    ensures |fs| <= |names|
  {
    if names == [] then []
    else
      var name := names[|names| - 1];
      var prior := Failures(handles, names[..|names| - 1]);
      match handles[name]()
      case None => prior
      case Some(e) => prior + [Wrap(e, name)]
  }

  /** Visiting one more check appends its wrapped failure, if any. */
  lemma FailuresSnoc(handles: map<string, HandleFunc>, names: seq<string>, name: string)
    requires forall n :: n in names ==> n in handles
    requires name in handles
    ensures Failures(handles, names + [name])
            == Failures(handles, names) + (if handles[name]().Some? then [Wrap(handles[name]().value, name)] else [])
  {
    assert (names + [name])[..|names|] == names;
  }

  /** No failure is collected iff every visited check passes. */
  lemma {:induction false} FailuresEmptyIff(handles: map<string, HandleFunc>, names: seq<string>)
    requires forall n :: n in names ==> n in handles
    ensures Failures(handles, names) == [] <==> forall i :: 0 <= i < |names| ==> handles[names[i]]() == None
    decreases |names|
  {
    if names != [] {
      var init := names[..|names| - 1];
      FailuresEmptyIff(handles, init);
      forall i | 0 <= i < |init|
        ensures init[i] == names[i]
      {
      }
    }
  }

  /** `LivenessServiceRegistry`. */
  class LivenessServiceRegistry {
    var handles: map<string, HandleFunc>

    constructor()
      ensures handles == map[]
    {
      handles := map[];
    }

    /** `RegisterFunc`: a later registration under a name replaces the
        earlier one. */
    method RegisterFunc(name: string, serv: HandleFunc) returns (self: LivenessServiceRegistry)
      modifies this
      ensures self == this && handles == old(handles)[name := serv]
    {
      handles := handles[name := serv];
      self := this;
    }

    /** `Register`: the service's `Alive` becomes the check. */
    method Register(name: string, serv: LivenessService) returns (self: LivenessServiceRegistry)
      modifies this
      ensures self == this && handles == old(handles)[name := serv.alive]
    {
      self := RegisterFunc(name, serv.alive);
    }

    /** `Alive`: runs every check once, in Go's unspecified map order
        (`order`), and fails iff some check fails, with the failures'
        wrapped messages one per line. */
    method Alive() returns (err: Option<Error>, ghost order: seq<string>)
      ensures |order| == |handles| && (forall n :: n in order <==> n in handles)
      ensures forall i, j :: 0 <= i < j < |order| ==> order[i] != order[j]
      ensures err.None? <==> forall n :: n in handles ==> handles[n]() == None
      ensures err.Some? ==> err == Some(External(Lines(Failures(handles, order))))
    {
      var result := new DeadStackedErrors();
      var todo := handles.Keys;
      order := [];
      assert |handles| == |handles.Keys|;
      while todo != {}
        invariant VisitedSoFar(handles.Keys, order, todo)
        invariant result.errors == Failures(handles, order)
        decreases todo
      {
        var name :| name in todo;
        var outcome := handles[name]();
        if outcome.Some? {
          result.Add(Some(Wrap(outcome.value, name)));
        }
        FailuresSnoc(handles, order, name);
        VisitStep(handles.Keys, order, todo, name);
        order := order + [name];
        todo := todo - {name};
      }
      assert |handles| == |handles.Keys|;
      AllVisited(handles, order);
      if result.HasErrors() {
        var text := result.Error();
        return Some(External(text)), order;
      }
      err := None;
    }
  }

  /** The state of a loop that visits `all` in some order: `order` lists the
      names visited, each once, and `todo` the rest. */
  ghost predicate VisitedSoFar(all: set<string>, order: seq<string>, todo: set<string>) {
    && todo <= all
    && (forall n :: n in order ==> n in all && n !in todo)
    && (forall n :: n in all && n !in todo ==> n in order)
    && (forall i, j :: 0 <= i < j < |order| ==> order[i] != order[j])
    && |order| + |todo| == |all|
  }

  /** Visiting one more name keeps the loop state. */
  lemma VisitStep(all: set<string>, order: seq<string>, todo: set<string>, name: string)
    requires VisitedSoFar(all, order, todo) && name in todo
    ensures VisitedSoFar(all, order + [name], todo - {name})
  {
    assert |todo - {name}| == |todo| - 1;
  }

  /** Once every check is visited, nothing failed iff every check passes. */
  lemma AllVisited(handles: map<string, HandleFunc>, order: seq<string>)
    requires forall n :: n in order <==> n in handles
    ensures Failures(handles, order) == [] <==> forall n :: n in handles ==> handles[n]() == None
  {
    FailuresEmptyIff(handles, order);
    if Failures(handles, order) == [] {
      forall n | n in handles
        ensures handles[n]() == None
      {
        var i :| 0 <= i < |order| && order[i] == n;
      }
    }
  }

  /** `LivenessProbe`, given what the service's `Alive` returned: 503 with
      the error's message, or 200 with no data. */
  method LivenessProbe(alive: Option<Error>, f: F.Factory) returns (r: P.DataResponse)
    requires f.Valid()
    ensures fresh(r) && r.formatter == f.formatter
    ensures alive.Some? ==> r.statusCode == Status.ServiceUnavailable
                            && r.data == f.BuildError(Status.ServiceUnavailable,
                                                      if Text(alive.value) == "" then "Service Unavailable" else Text(alive.value), None)
    ensures alive.None? ==> r.statusCode == Status.OK && r.data == Conv.Nil
  {
    if alive.Some? {
      r := f.ServiceUnavailable(Text(alive.value));
    } else {
      r := f.Success(Conv.Nil);
    }
  }

  /** `Liveness`, given what the service's `Alive` returned: a plain-text
      503 carrying the error's message (which `http.Error` re-types as
      UTF-8 text), or an empty 200. */
  method LivenessHandler(alive: Option<Error>, w: T.Sink)
    requires w.committed.None?
    modifies w, w.header
    ensures alive.Some? ==> w.committed == Some(Status.ServiceUnavailable)
                            && w.body == old(w.body) + w.Taken(Text(alive.value) + "\n")
                            && GetOf(w.sent, ContentType) == ContentTypePlainUtf8
    ensures alive.None? ==> w.committed == Some(Status.OK) && w.body == old(w.body)
                            && GetOf(w.sent, ContentType) == ContentTypePlain
  {
    w.header.Set(ContentType, ContentTypePlain);
    if alive.Some? {
      w.Error(Text(alive.value), Status.ServiceUnavailable);
    } else {
      w.WriteHeader(Status.OK);
    }
  }
}
