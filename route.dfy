/** The route pipeline of io.jooby.Route: the Decorator/Before/After/Handler
    combinators, the pipeline the constructor compiles from them, and the
    route's mutable metadata (handle, pipeline, return type, produced and
    consumed media types, parser table).

    User code (a handler body, a `before` body, an `after` body) is a
    function of the request context; the interpreter `Run` executes a
    composed handler and returns the trace of user code it entered together
    with the outcome, so that order and exactly-once can be stated. */
module Route {
  import opened Common

  /** The request context handed to user code (only its identity matters
      here; whatever user code reads from it is part of that code). */
  type Ctx = nat

  /** The Object a handler or after-filter returns. */
  type Value = int

  /** The exception thrown by user code. */
  type Cause = nat

  /** What a handler or after-filter does: return a value or throw. */
  datatype Outcome = Ok(value: Value) | Fail(cause: Cause)

  /** What a `before` body does: return normally or throw. */
  datatype Completion = Normal | Thrown(cause: Cause)

  /** Entry into one piece of user code, identified by its id. */
  datatype Event = BeforeRan(id: nat) | HandlerRan(id: nat) | AfterRan(id: nat)

  datatype Execution = Execution(trace: seq<Event>, outcome: Outcome)

  /** The before-logic that ran ahead of the handler and how it ended. */
  datatype Prelude = Prelude(trace: seq<Event>, completion: Completion)

  /** Route.Decorator: a Route.Before, or `first.then(next)`. */
  datatype Decorator =
    | Before(id: nat, before: Ctx -> Completion)
    | DecoratorThen(first: Decorator, next: Decorator)

  /** Route.After: one after-filter, or `first.then(next)`. */
  datatype After =
    | AfterFn(id: nat, code: (Ctx, Value) -> Outcome)
    | AfterThen(first: After, next: After)

  /** Route.Handler: a user handler, or one of the handlers the combinators
      build. */
  datatype Handler =
    | UserHandler(id: nat, code: Ctx -> Outcome)
      // the lambda `Before.apply(next)` returns
    | BeforeHandler(id: nat, before: Ctx -> Completion, next: Handler)
      // the lambda `Decorator.then(next)` returns
    | DecoratedHandler(decorator: Decorator, next: Handler)
      // the lambda `Handler.then(after)` returns
    | HandlerThenAfter(handler: Handler, after: After)

  function DecoratorSize(d: Decorator): nat {
    match d
    case Before(_, _) => 1
    case DecoratorThen(a, b) => DecoratorSize(a) + DecoratorSize(b)
  }

  function HandlerSize(h: Handler): nat {
    match h
    case UserHandler(_, _) => 1
    case BeforeHandler(_, _, next) => 1 + HandlerSize(next)
    case DecoratedHandler(d, next) => 1 + DecoratorSize(d) + HandlerSize(next)
    case HandlerThenAfter(inner, _) => 1 + HandlerSize(inner)
  }

  /** Decorator.apply(next): a Before wraps `next`; `a.then(b)` applies as
      `a.apply(b.apply(next))`. */
  function Apply(d: Decorator, next: Handler): (h: Handler)
    ensures HandlerSize(h) == DecoratorSize(d) + HandlerSize(next)
  {
    match d
    case Before(id, b) => BeforeHandler(id, b, next)
    case DecoratorThen(a, b) => Apply(a, Apply(b, next))
  }

  /** Handler.apply(ctx). */
  function Run(h: Handler, ctx: Ctx): Execution
    decreases HandlerSize(h)
  {
    match h
    case UserHandler(id, code) => Execution([HandlerRan(id)], code(ctx))
    case BeforeHandler(id, b, next) =>
      if b(ctx).Thrown? then Execution([BeforeRan(id)], Fail(b(ctx).cause))
      else
        var r := Run(next, ctx);
        Execution([BeforeRan(id)] + r.trace, r.outcome)
    case DecoratedHandler(d, next) => Run(Apply(d, next), ctx)
    case HandlerThenAfter(inner, a) =>
      ThenAfter(Run(inner, ctx), a, ctx)
  }

  /** After.apply(ctx, result); for `first.then(next)` the argument `next`
      runs first and its result feeds `first`. */
  function RunAfter(a: After, ctx: Ctx, result: Value): Execution {
    match a
    case AfterFn(id, code) => Execution([AfterRan(id)], code(ctx, result))
    case AfterThen(first, next) =>
      var s := RunAfter(next, ctx, result);
      match s.outcome
      case Fail(_) => s
      case Ok(w) =>
        var t := RunAfter(first, ctx, w);
        Execution(s.trace + t.trace, t.outcome)
  }

  /** The before-logic of a decorator on its own: every `before` of the
      chain, outermost first, stopping at the first one that throws. */
  function RunBefores(d: Decorator, ctx: Ctx): Prelude {
    match d
    case Before(id, b) => Prelude([BeforeRan(id)], b(ctx))
    case DecoratorThen(a, b) =>
      var p := RunBefores(a, ctx);
      if p.completion.Thrown? then p
      else
        var q := RunBefores(b, ctx);
        Prelude(p.trace + q.trace, q.completion)
  }

  /** Running `rest` after a prelude: nothing more runs if the prelude threw. */
  function Sequence(p: Prelude, rest: Execution): Execution {
    match p.completion
    case Thrown(e) => Execution(p.trace, Fail(e))
    case Normal => Execution(p.trace + rest.trace, rest.outcome)
  }

  /** Running `after` on the result of an execution: skipped when it failed. */
  function ThenAfter(r: Execution, a: After, ctx: Ctx): Execution {
    match r.outcome
    case Fail(_) => r
    case Ok(v) =>
      var s := RunAfter(a, ctx, v);
      Execution(r.trace + s.trace, s.outcome)
  }

  /** A decorated handler runs the decorator's before-logic and then, only
      if none of it threw, the handler itself, once. */
  lemma {:induction false} ApplyRuns(d: Decorator, h: Handler, ctx: Ctx)
    ensures Run(Apply(d, h), ctx) == Sequence(RunBefores(d, ctx), Run(h, ctx))
  {
    match d
    case Before(id, b) =>
    case DecoratorThen(a, b) =>
      ApplyRuns(b, h, ctx);
      ApplyRuns(a, Apply(b, h), ctx);
      var p, q, r := RunBefores(a, ctx), RunBefores(b, ctx), Run(h, ctx);
      if p.completion.Normal? && q.completion.Normal? {
        assert p.trace + (q.trace + r.trace) == (p.trace + q.trace) + r.trace;
      }
  }

  /** `a.then(b).apply(h)` behaves as `a.apply(b.apply(h))`: a's before-logic
      first, then b's, then h. */
  lemma DecoratorThenApplies(a: Decorator, b: Decorator, h: Handler, ctx: Ctx)
    ensures Run(Apply(DecoratorThen(a, b), h), ctx) == Run(Apply(a, Apply(b, h)), ctx)
    ensures Run(Apply(DecoratorThen(a, b), h), ctx)
         == Sequence(RunBefores(a, ctx), Sequence(RunBefores(b, ctx), Run(h, ctx)))
  {
    ApplyRuns(a, Apply(b, h), ctx);
    ApplyRuns(b, h, ctx);
  }

  /** `d.then(h)` behaves as `d.apply(h)` on every context. */
  lemma DecoratorThenHandlerRuns(d: Decorator, h: Handler, ctx: Ctx)
    ensures Run(DecoratedHandler(d, h), ctx) == Run(Apply(d, h), ctx)
    ensures Run(DecoratedHandler(d, h), ctx) == Sequence(RunBefores(d, ctx), Run(h, ctx))
  {
    ApplyRuns(d, h, ctx);
  }

  /** `Before.apply(next)`: `before` runs, then `next`; when `before` throws
      the exception propagates and `next` never runs. */
  lemma BeforeApplyRuns(id: nat, b: Ctx -> Completion, next: Handler, ctx: Ctx)
    ensures b(ctx).Normal? ==>
      Run(Apply(Before(id, b), next), ctx)
        == Execution([BeforeRan(id)] + Run(next, ctx).trace, Run(next, ctx).outcome)
    ensures b(ctx).Thrown? ==>
      Run(Apply(Before(id, b), next), ctx) == Execution([BeforeRan(id)], Fail(b(ctx).cause))
  {
  }

  /** `a.then(b)` on after-filters: b's result feeds a; a failure of b skips a. */
  lemma AfterThenFeeds(a: After, b: After, ctx: Ctx, result: Value)
    ensures RunAfter(AfterThen(a, b), ctx, result) == ThenAfter(RunAfter(b, ctx, result), a, ctx)
  {
  }

  /** Chaining after-filters is associative. */
  lemma AfterThenAssociative(a: After, b: After, c: After, ctx: Ctx, result: Value)
    ensures RunAfter(AfterThen(AfterThen(a, b), c), ctx, result)
         == RunAfter(AfterThen(a, AfterThen(b, c)), ctx, result)
  {
    var s := RunAfter(c, ctx, result);
    if s.outcome.Ok? {
      var t := RunAfter(b, ctx, s.outcome.value);
      if t.outcome.Ok? {
        var u := RunAfter(a, ctx, t.outcome.value);
        assert (s.trace + t.trace) + u.trace == s.trace + (t.trace + u.trace);
      }
    }
  }

  /** `h.then(after)` hands the handler's result to `after`; when the
      handler throws, `after` is not invoked and the failure propagates. */
  lemma HandlerThenPassesResult(h: Handler, a: After, ctx: Ctx)
    ensures Run(HandlerThenAfter(h, a), ctx) == ThenAfter(Run(h, ctx), a, ctx)
    ensures Run(h, ctx).outcome.Fail? ==> Run(HandlerThenAfter(h, a), ctx) == Run(h, ctx)
  {
  }

  /** The pipeline the Route constructor compiles: the handler, wrapped by
      `before.then(handler)` when there is a before-decorator, then
      `.then(after)` when there is an after-filter. */
  function Compile(handler: Handler, before: Option<Decorator>, after: Option<After>): Handler {
    var p := if before.Some? then DecoratedHandler(before.value, handler) else handler;
    if after.Some? then HandlerThenAfter(p, after.value) else p
  }

  /** One invocation of a compiled pipeline runs the before-logic, then the
      handler, then the after-logic on the handler's result, each at most
      once and in that order; a failure at any stage ends the invocation. */
  lemma PipelineRuns(handler: Handler, before: Option<Decorator>, after: Option<After>, ctx: Ctx)
    ensures before.None? && after.None? ==> Compile(handler, before, after) == handler
    ensures before.Some? && after.None? ==>
      Run(Compile(handler, before, after), ctx) == Sequence(RunBefores(before.value, ctx), Run(handler, ctx))
    ensures before.None? && after.Some? ==>
      Run(Compile(handler, before, after), ctx) == ThenAfter(Run(handler, ctx), after.value, ctx)
    ensures before.Some? && after.Some? ==>
      Run(Compile(handler, before, after), ctx)
        == ThenAfter(Sequence(RunBefores(before.value, ctx), Run(handler, ctx)), after.value, ctx)
  {
    if before.Some? {
      ApplyRuns(before.value, handler, ctx);
    }
  }

  /** With one before, one handler and one after that all complete, the
      pipeline enters each exactly once, in the order before, handler,
      after, and returns what the after-filter makes of the handler's
      result. */
  lemma PipelineOrder(
    bid: nat, b: Ctx -> Completion, hid: nat, h: Ctx -> Outcome,
    aid: nat, a: (Ctx, Value) -> Outcome, ctx: Ctx)
    requires b(ctx).Normal? && h(ctx).Ok?
    ensures
      var run := Run(Compile(UserHandler(hid, h), Some(Before(bid, b)), Some(AfterFn(aid, a))), ctx);
      run.trace == [BeforeRan(bid), HandlerRan(hid), AfterRan(aid)]
      && run.outcome == a(ctx, h(ctx).value)
  {
    PipelineRuns(UserHandler(hid, h), Some(Before(bid, b)), Some(AfterFn(aid, a)), ctx);
  }

  /** When `before` throws, neither the handler nor the after-filter runs. */
  lemma PipelineBeforeThrows(
    bid: nat, b: Ctx -> Completion, hid: nat, h: Ctx -> Outcome,
    aid: nat, a: (Ctx, Value) -> Outcome, ctx: Ctx)
    requires b(ctx).Thrown?
    ensures
      var run := Run(Compile(UserHandler(hid, h), Some(Before(bid, b)), Some(AfterFn(aid, a))), ctx);
      run.trace == [BeforeRan(bid)] && run.outcome == Fail(b(ctx).cause)
  {
    PipelineRuns(UserHandler(hid, h), Some(Before(bid, b)), Some(AfterFn(aid, a)), ctx);
  }

  /** io.jooby.MediaType, known here only by its value string. */
  datatype MediaType = MediaType(value: string)

  /** io.jooby.Parser; UnsupportedMediaType is Parser.UNSUPPORTED_MEDIA_TYPE. */
  datatype Parser = UnsupportedMediaType | RegisteredParser(name: string)

  datatype Renderer = Renderer(name: string)

  /** A java.lang.reflect.Type. */
  datatype TypeRef = TypeRef(name: string)

  /** The route's handle: the handler itself, or some other object. */
  datatype Handle = HandlerHandle(handler: Handler) | ObjectHandle(id: nat)

  /** The private ArrayList a route allocates on its first append. */
  class MediaTypeList {
    var items: seq<MediaType>

    constructor ()
      ensures items == []
    {
      items := [];
    }

    method Add(t: MediaType)
      modifies this
      ensures items == old(items) + [t]
    {
      items := items + [t];
    }
  }

  class Route {
    const httpMethod: string
    const pattern: string
    const pathKeys: seq<string>
    const before: Option<Decorator>
    const handler: Handler
    const after: Option<After>
    const renderer: Renderer
    const parsers: map<string, Parser>
    var pipeline: Handler
    var returnType: TypeRef
    var handle: Handle
    // null stands for the shared, immutable EMPTY_LIST
    var produces: MediaTypeList?
    var consumes: MediaTypeList?

    /** The two media-type lists are never the same object. */
    ghost predicate Valid()
      reads this
    {
      produces != null && consumes != null ==> produces != consumes
    }

    /** getProduces(). */
    ghost function Produces(): seq<MediaType>
      reads this, produces
    {
      if produces == null then [] else produces.items
    }

    /** getConsumes(). */
    ghost function Consumes(): seq<MediaType>
      reads this, consumes
    {
      if consumes == null then [] else consumes.items
    }

    constructor (
      httpMethod: string, pattern: string, pathKeys: seq<string>, returnType: TypeRef,
      handler: Handler, before: Option<Decorator>, after: Option<After>,
      renderer: Renderer, parsers: map<string, Parser>)
      ensures Valid()
      ensures NoLowerCase(this.httpMethod) && EqualIgnoringCase(this.httpMethod, httpMethod)
      ensures this.pattern == pattern && this.pathKeys == pathKeys
      ensures this.returnType == returnType && this.renderer == renderer && this.parsers == parsers
      ensures this.handler == handler && this.before == before && this.after == after
      ensures handle == HandlerHandle(handler)
      ensures pipeline == Compile(handler, before, after)
      ensures before.None? && after.None? ==> pipeline == handler
      ensures produces == null && consumes == null
      ensures Produces() == [] && Consumes() == []
    {
      this.httpMethod := ToUpper(httpMethod);
      this.pattern := pattern;
      this.returnType := returnType;
      this.handler := handler;
      this.before := before;
      this.after := after;
      this.renderer := renderer;
      this.pathKeys := pathKeys;
      this.parsers := parsers;
      this.handle := HandlerHandle(handler);
      new;
      ToUpperCharacterised(httpMethod, this.httpMethod);
      pipeline := handler;
      if before.Some? {
        pipeline := DecoratedHandler(before.value, pipeline);
      }
      if after.Some? {
        pipeline := HandlerThenAfter(pipeline, after.value);
      }
      produces := null;
      consumes := null;
    }

    method SetHandle(handle: Handle) returns (self: Route)
      modifies this`handle
      ensures self == this && this.handle == handle
    {
      this.handle := handle;
      self := this;
    }

    method SetPipeline(pipeline: Handler) returns (self: Route)
      modifies this`pipeline
      ensures self == this && this.pipeline == pipeline
    {
      this.pipeline := pipeline;
      self := this;
    }

    method SetReturnType(returnType: TypeRef) returns (self: Route)
      modifies this`returnType
      ensures self == this && this.returnType == returnType
    {
      this.returnType := returnType;
      self := this;
    }

    /** setProduces: appends in order; the first append swaps the shared
        empty list for a list of this route's own. */
    method SetProduces(types: seq<MediaType>) returns (self: Route)
      requires Valid()
      modifies this`produces, produces
      ensures Valid() && self == this
      ensures Produces() == old(Produces()) + types
      ensures old(produces) == null ==> fresh(produces)
      ensures old(produces) != null ==> produces == old(produces)
    {
      if produces == null {
        produces := new MediaTypeList();
      }
      var list := produces;
      for i := 0 to |types|
        invariant produces == list
        invariant list.items == old(Produces()) + types[..i]
      {
        list.Add(types[i]);
      }
      self := this;
    }

    /** setConsumes: the same append rule for the consumed types. */
    method SetConsumes(types: seq<MediaType>) returns (self: Route)
      requires Valid()
      modifies this`consumes, consumes
      ensures Valid() && self == this
      ensures Consumes() == old(Consumes()) + types
      ensures old(consumes) == null ==> fresh(consumes)
      ensures old(consumes) != null ==> consumes == old(consumes)
    {
      if consumes == null {
        consumes := new MediaTypeList();
      }
      var list := consumes;
      for i := 0 to |types|
        invariant consumes == list
        invariant list.items == old(Consumes()) + types[..i]
      {
        list.Add(types[i]);
      }
      self := this;
    }

    /** produces(types...): the same as setProduces on the given types. */
    method Produce(types: seq<MediaType>) returns (self: Route)
      requires Valid()
      modifies this`produces, produces
      ensures Valid() && self == this
      ensures Produces() == old(Produces()) + types
      ensures old(produces) == null ==> fresh(produces)
      ensures old(produces) != null ==> produces == old(produces)
    {
      self := SetProduces(types);
    }

    /** consumes(types...): the same as setConsumes on the given types. */
    method Consume(types: seq<MediaType>) returns (self: Route)
      requires Valid()
      modifies this`consumes, consumes
      ensures Valid() && self == this
      ensures Consumes() == old(Consumes()) + types
      ensures old(consumes) == null ==> fresh(consumes)
      ensures old(consumes) != null ==> consumes == old(consumes)
    {
      self := SetConsumes(types);
    }

    /** parser(contentType): the parser registered under the media type's
        value, else the unsupported-media-type parser. */
    function ParserFor(contentType: MediaType): (p: Parser)
      ensures contentType.value in parsers ==> p == parsers[contentType.value]
      ensures contentType.value !in parsers ==> p == UnsupportedMediaType
    {
      if contentType.value in parsers then parsers[contentType.value] else UnsupportedMediaType
    }

    /** toString(): the method, one space, the pattern. */
    function ToString(): (s: string)
      ensures |s| == |httpMethod| + 1 + |pattern|
      ensures s[..|httpMethod|] == httpMethod && s[|httpMethod|] == ' ' && s[|httpMethod| + 1..] == pattern
    {
      httpMethod + " " + pattern
    }
  }

  /** Appending to one route's produced types leaves every other route's
      lists as they were, as long as the two do not share a list object
      (which they never do: a route's list is allocated by its own first
      append). */
  method AppendIsPrivate(r: Route, other: Route, types: seq<MediaType>)
    requires r != other && r.Valid()
    requires r.produces == null || (r.produces != other.produces && r.produces != other.consumes)
    modifies r, r.produces
    ensures r.Produces() == old(r.Produces()) + types
    ensures other.Produces() == old(other.Produces()) && other.Consumes() == old(other.Consumes())
  {
    var _ := r.SetProduces(types);
  }

  /** Two routes built without produced types: appending to one does not
      show up in the other. */
  method RoutesDoNotShareDefaults(h: Handler, json: MediaType) returns (r1: Route, r2: Route)
    ensures r1 != r2
    ensures r1.Produces() == [json] && r2.Produces() == []
  {
    r1 := new Route("get", "/a", [], TypeRef("String"), h, None, None, Renderer("text"), map[]);
    r2 := new Route("get", "/b", [], TypeRef("String"), h, None, None, Renderer("text"), map[]);
    assert r2.produces == null;
    var _ := r1.SetProduces([json]);
  }
}
