/** chain.go's middleware composition and server.go's `ServeMux`
    middleware list. A handler maps a request to a response; a middleware
    maps the next handler to a new one. */
module Chains {
  type HandlerFunc<!Q, R> = Q -> R
  type Middleware<!Q, !R> = HandlerFunc<Q, R> -> HandlerFunc<Q, R>

  /** A handler as `Chain` builds it: the original, or a `ChainHandler`
      layer holding a middleware and the handler it wraps. */
  datatype Handler<!Q, !R> =
    | Base(fn: HandlerFunc<Q, R>)
    | ChainHandler(middleware: Middleware<Q, R>, next: Handler<Q, R>)

  /** `Handle`; a `ChainHandler` runs `middleware(next)`. */
  function Handle<Q, R>(h: Handler<Q, R>, q: Q): R
    decreases h, 0
  {
    match h
    case Base(fn) => fn(q)
    case ChainHandler(m, next) => m(AsFunc(next))(q)
  }

  /** A handler as a function, which is what a middleware receives. */
  function AsFunc<Q, R>(h: Handler<Q, R>): HandlerFunc<Q, R>
    decreases h, 1
  {
    (q: Q) => Handle(h, q)
  }

  /** The number of `ChainHandler` layers. */
  function Layers<Q, R>(h: Handler<Q, R>): nat {
    match h
    case Base(_) => 0
    case ChainHandler(_, next) => 1 + Layers(next)
  }

  /** `h` wrapped so that `ms[0]` is outermost. */
  function Wrapped<Q, R>(h: Handler<Q, R>, ms: seq<Middleware<Q, R>>): Handler<Q, R>
    decreases |ms|
  {
    if ms == [] then h else ChainHandler(ms[0], Wrapped(h, ms[1..]))
  }

  /** `Chain`: wraps from the last middleware backwards. */
  method Chain<Q, R>(h: Handler<Q, R>, ms: seq<Middleware<Q, R>>) returns (r: Handler<Q, R>)
    ensures r == Wrapped(h, ms)
    ensures ms == [] ==> r == h
    ensures Layers(r) == Layers(h) + |ms|
  {
    r := h;
    var i := |ms|;
    while i > 0
      invariant 0 <= i <= |ms|
      invariant r == Wrapped(h, ms[i..])
    {
      i := i - 1;
      assert ms[i..][1..] == ms[i + 1..];
      r := ChainHandler(ms[i], r);
    }
    WrappedLayers(h, ms);
  }

  lemma {:induction false} WrappedLayers<Q, R>(h: Handler<Q, R>, ms: seq<Middleware<Q, R>>)
    ensures Layers(Wrapped(h, ms)) == Layers(h) + |ms|
    decreases |ms|
  {
    if ms != [] {
      WrappedLayers(h, ms[1..]);
    }
  }

  /** The first middleware listed sees the request first and the response
      last: the chain behaves as `ms[0](Wrapped(h, ms[1..]))`. */
  lemma OutermostFirst<Q, R>(h: Handler<Q, R>, ms: seq<Middleware<Q, R>>, q: Q)
    requires ms != []
    ensures Handle(Wrapped(h, ms), q) == ms[0](AsFunc(Wrapped(h, ms[1..])))(q)
  {
  }

  /** A middleware that adds a header after calling the next handler; the
      response is the list of header names added, in order. */
  function AddsHeaderAfter<Q>(name: string): Middleware<Q, seq<string>> {
    (next: HandlerFunc<Q, seq<string>>) => (q: Q) => next(q) + [name]
  }

  function AddingMiddlewares<Q>(names: seq<string>): (ms: seq<Middleware<Q, seq<string>>>)
    ensures |ms| == |names|
    ensures forall i :: 0 <= i < |names| ==> ms[i] == AddsHeaderAfter(names[i])
    decreases |names|
  {
    if names == [] then [] else [AddsHeaderAfter(names[0])] + AddingMiddlewares(names[1..])
  }

  function Reversed(s: seq<string>): (r: seq<string>)
    ensures |r| == |s|
    decreases |s|
  {
    if s == [] then [] else Reversed(s[1..]) + [s[0]]
  }

  /** Post-processing middlewares act innermost first: chained in the
      order given, their headers come out in the reverse order. */
  lemma {:induction false} PostProcessingOrder<Q>(base: HandlerFunc<Q, seq<string>>, names: seq<string>, q: Q)
    ensures Handle(Wrapped(Base(base), AddingMiddlewares(names)), q) == base(q) + Reversed(names)
    decreases |names|
  {
    if names != [] {
      var ms := AddingMiddlewares<Q>(names);
      assert ms[1..] == AddingMiddlewares(names[1..]);
      PostProcessingOrder(base, names[1..], q);
      calc {
        Handle(Wrapped(Base(base), ms), q);
        AddsHeaderAfter<Q>(names[0])(AsFunc(Wrapped(Base(base), ms[1..])))(q);
        Handle(Wrapped(Base(base), ms[1..]), q) + [names[0]];
        base(q) + Reversed(names[1..]) + [names[0]];
      }
    }
  }

  /** The benchmark's three middlewares: "X-MW-3", then "X-MW-2", then "X-MW-1". */
  lemma ThreeMiddlewares<Q>(base: HandlerFunc<Q, seq<string>>, q: Q)
    ensures Handle(Wrapped(Base(base), AddingMiddlewares(["X-MW-1", "X-MW-2", "X-MW-3"])), q)
            == base(q) + ["X-MW-3", "X-MW-2", "X-MW-1"]
  {
    var names := ["X-MW-1", "X-MW-2", "X-MW-3"];
    PostProcessingOrder(base, names, q);
    assert names[1..][1..][1..] == [];
    assert Reversed(names) == ["X-MW-3", "X-MW-2", "X-MW-1"];
  }

  /** server.go's `ServeMux`: registered routes and the middleware list. */
  class ServeMux<!Q, !R> {
    var middlewares: seq<Middleware<Q, R>>
    var routes: map<string, Handler<Q, R>>

    /** `NewServeMux`. */
    constructor()
      ensures middlewares == [] && routes == map[]
    {
      middlewares := [];
      routes := map[];
    }

    /** `WithMiddleware`: appends, keeping the ones already there. */
    method WithMiddleware(ms: seq<Middleware<Q, R>>)
      modifies this
      ensures middlewares == old(middlewares) + ms && routes == old(routes)
    {
      middlewares := middlewares + ms;
    }

    /** `Handle`: the handler wrapped in the current middlewares. net/http
        refuses a pattern registered twice. */
    method Handle(pattern: string, h: Handler<Q, R>)
      requires pattern !in routes
      modifies this
      ensures routes == old(routes)[pattern := Wrapped(h, middlewares)] && middlewares == old(middlewares)
    {
      var chained := Chain(h, middlewares);
      routes := routes[pattern := chained];
    }
  }
}
