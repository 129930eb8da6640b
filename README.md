# Jooby route pipeline, request context, javadoc links and signed sessions

This project models four pieces of the Jooby web framework in Dafny and
proves properties of them.

- **Route pipeline and metadata** (`route.dfy`, module `Route`).
  - The combinators `Decorator.then`, `Before.apply`, `After.then` and `Handler.then` build a `Handler` datatype.
  - An interpreter `Run` executes a handler on a request context. It returns the trace of the user code it entered and the outcome: a value, or the exception thrown.
  - The class `Route` holds:
    - the pipeline the constructor compiles from before, handler and after;
    - the handle, the pipeline and the return type, which have setters;
    - the produced and consumed media-type lists. Each starts as the shared empty list, stands for `null` here, and is replaced by a list of the route's own on the first append;
    - the parser lookup and `toString`.
- **Per-request context state** (`utow_context.dfy`, module `Utow`).
  - The class `Context` models the Undertow context. Its headers, query, form and multipart values are computed on first use and then cached. `multipart()` also makes the multipart object the form. A form or multipart object is cached before its parser runs, so a parse that throws leaves it cached empty.
  - `formData` puts every parsed value into the form and registers every file value as an upload. `destroy` tries to delete every upload and reports failures.
  - It also models the response Content-Type written by `type`, the upper-cased request method and the hand-off of errors to the error handler.
  - The native exchange is given as values: the method, the headers, the raw query string and the fields each form parser yields.
  - Ghost counters record how often each cached value was built.
- **Javadoc link builder** (`javadoc_processor.dfy`, module `Javadoc`).
  - The javadoc inline macro of the documentation build splits a dotted class name into package and class segments, then builds the javadoc URL and the display text.
  - Method anchors read their parameter types from the attributes "2", "3", … up to the first missing one. Constants get a plain anchor.
  - `Process` follows the source step by step and is proved equal to the declarative `Javadoc` function.
- **Stateless signed session store** (`signed_session_store.dfy`, module `SignedSessions`).
  - A session lives only in a signed token kept by a `SessionToken` collaborator.
  - Finding a session decodes the token. Touching or renewing a session re-encodes its attributes into a new token. Deleting clears the token, and saving does nothing.
- **Shared vocabulary** (`common.dfy`, module `Common`): `Option`, ASCII upper-casing, and joining strings with a separator.

## Model

| member | source | states |
|---|---|---|
| Common.ToUpperCharacterised | future/src/main/java/io/jooby/internal/utow/UtowContext.java:53 | the upper-cased string is the unique string without lower-case letters that equals the input up to case; upper-casing is idempotent |
| Route.ApplyRuns | jooby/src/main/java/io/jooby/Route.java:68-95 | a decorator applied to a handler runs its before-logic outermost first and then the handler once, and the handler does not run if a `before` throws |
| Route.DecoratorThenApplies | jooby/src/main/java/io/jooby/Route.java:68-70 | `a.then(b).apply(h)` behaves as `a.apply(b.apply(h))`: a's before-logic, then b's, then h |
| Route.DecoratorThenHandlerRuns | jooby/src/main/java/io/jooby/Route.java:78-80 | `d.then(h)` behaves as `d.apply(h)` on every context |
| Route.BeforeApplyRuns | jooby/src/main/java/io/jooby/Route.java:90-95 | `before` runs first and then `next`, whose result is returned; if `before` throws, the exception propagates and `next` never runs |
| Route.AfterThenFeeds | jooby/src/main/java/io/jooby/Route.java:120-122 | in `a.then(b)` the argument `b` runs first and its result feeds `a`; a failure of `b` skips `a` |
| Route.AfterThenAssociative | jooby/src/main/java/io/jooby/Route.java:120-122 | chaining after-filters is associative: both groupings enter the same filters in the same order with the same outcome |
| Route.HandlerThenPassesResult | jooby/src/main/java/io/jooby/Route.java:169-171 | `h.then(after)` hands the handler's result to `after`; when the handler fails, `after` is not entered and the failure is the result |
| Route.PipelineRuns | jooby/src/main/java/io/jooby/Route.java:251-257 | with neither before nor after the pipeline is the handler itself; otherwise it runs the before-logic, the handler and the after-filter on the handler's result, each stage only if the previous one succeeded |
| Route.PipelineOrder | jooby/src/main/java/io/jooby/Route.java:251-257 | with one before, handler and after that all succeed, each is entered exactly once, in the order before, handler, after, and the result is the after-filter applied to the handler's value |
| Route.PipelineBeforeThrows | jooby/src/main/java/io/jooby/Route.java:251-257 | when `before` throws, only `before` is entered and its exception is the result |
| Route.Route.constructor | jooby/src/main/java/io/jooby/Route.java:231-258 | the method is stored upper-cased; every argument is stored; the handle is the handler; the pipeline is the compiled before/handler/after; both media-type lists are the shared empty list |
| Route.Route.SetHandle | jooby/src/main/java/io/jooby/Route.java:364-367 | only the handle changes, to the argument, and the same route is returned |
| Route.Route.SetPipeline | jooby/src/main/java/io/jooby/Route.java:375-378 | only the pipeline changes, to the argument, and the same route is returned |
| Route.Route.SetReturnType | jooby/src/main/java/io/jooby/Route.java:404-407 | only the return type changes, to the argument, and the same route is returned |
| Route.Route.SetProduces | jooby/src/main/java/io/jooby/Route.java:436-442 | the produced types become the old ones followed by the arguments in order; the first append allocates a fresh list, later ones reuse it; the two lists stay distinct |
| Route.Route.Produce | jooby/src/main/java/io/jooby/Route.java:426-428 | the varargs form appends exactly as setProduces does |
| Route.Route.SetConsumes | jooby/src/main/java/io/jooby/Route.java:471-477 | the consumed types become the old ones followed by the arguments in order; the first append allocates a fresh list, later ones reuse it |
| Route.Route.Consume | jooby/src/main/java/io/jooby/Route.java:461-463 | the varargs form appends exactly as setConsumes does |
| Route.Route.ParserFor | jooby/src/main/java/io/jooby/Route.java:485-487 | the parser registered under the media type's value, else the unsupported-media-type parser |
| Route.Route.ToString | jooby/src/main/java/io/jooby/Route.java:489-491 | the method, then one space, then the pattern, and nothing else |
| Route.AppendIsPrivate | jooby/src/main/java/io/jooby/Route.java:436-442 | appending to one route's produced types changes no list of another route that does not share its list object |
| Route.RoutesDoNotShareDefaults | jooby/src/main/java/io/jooby/Route.java:214-216 | two routes both start with the shared empty list; after appending to the first, the second still has no produced types |
| Utow.Context.constructor | future/src/main/java/io/jooby/internal/utow/UtowContext.java:34-38 | a new context has every cache unset and no uploads |
| Utow.Context.Method | future/src/main/java/io/jooby/internal/utow/UtowContext.java:52-54 | the native method with no lower-case letters, equal to it up to case |
| Utow.Context.Headers | future/src/main/java/io/jooby/internal/utow/UtowContext.java:68-79 | the snapshot of the request headers; built only when the cache is unset, afterwards the cached value without another build |
| Utow.HeaderSnapshotEntries | future/src/main/java/io/jooby/internal/utow/UtowContext.java:68-79 | the snapshot's keys are exactly the native header names, each with its own values |
| Utow.Context.Query | future/src/main/java/io/jooby/internal/utow/UtowContext.java:81-90 | an empty raw query gives the shared empty query and leaves the cache unset; otherwise '?' + raw is parsed once and the cached value returned |
| Utow.QueryOfInjective | future/src/main/java/io/jooby/internal/utow/UtowContext.java:81-90 | the shared empty query comes exactly from the empty raw string; any other raw query is parsed from '?' followed by the raw text (the last clause, injectivity, is about this model's representation of a parsed query, not about the unmodelled parser) |
| Utow.Context.Form | future/src/main/java/io/jooby/internal/utow/UtowContext.java:92-104 | the first call creates a fresh empty form and counts one parse; it returns the form filled with the url-encoded fields, or throws when the parser fails and leaves that empty form cached; later calls return the cached object with no new parse |
| Utow.FormTwice | future/src/main/java/io/jooby/internal/utow/UtowContext.java:92-104 | the second call returns the cached form, equal to the first result when that one returned, with at most one parse; when the first parse throws, the second call returns the empty form it cached, and there is one parse in all |
| Utow.Context.Multipart | future/src/main/java/io/jooby/internal/utow/UtowContext.java:106-124 | throws and changes nothing when requireBlocking refuses; otherwise the first call creates a fresh multipart object, makes it the form too and fills it, or throws when the parser fails and leaves it cached empty; later calls return it with no new parse |
| Utow.FormAfterMultipart | future/src/main/java/io/jooby/internal/utow/UtowContext.java:106-124 | after a multipart() that passed requireBlocking, form() returns the multipart object itself without parsing, also when the multipart parse threw |
| Utow.Context.Register | future/src/main/java/io/jooby/internal/utow/UtowContext.java:204-210 | the upload is appended to the upload list, which is created on first use; the upload is returned |
| Utow.Context.PutField | future/src/main/java/io/jooby/internal/utow/UtowContext.java:217-223 | every value of one field is put under the field name in order, and exactly its file values are appended to the upload list |
| Utow.Context.FormData | future/src/main/java/io/jooby/internal/utow/UtowContext.java:212-225 | every value of every field is put into the form in iteration order, and exactly the file values are appended to the upload list |
| Utow.RegisteredUploadsAreFormFiles | future/src/main/java/io/jooby/internal/utow/UtowContext.java:212-225 | the registered uploads are exactly the file items of the form, in the order they were put; no text value is registered |
| Utow.Context.Destroy | future/src/main/java/io/jooby/internal/utow/UtowContext.java:197-202 | with no upload registered nothing is attempted; otherwise deletion is attempted on every upload in order and each failure is reported, assuming the failure handler swallows the exception (see Left out) |
| Utow.FailuresReported | future/src/main/java/io/jooby/internal/utow/UtowContext.java:197-202 | under the same assumption, a failure does not stop the rest: the reported uploads are exactly the registered ones whose deletion fails |
| Utow.Context.Type | future/src/main/java/io/jooby/internal/utow/UtowContext.java:155-162 | Content-Type becomes the content type alone without a charset, else content type + ";charset=" + charset; the same context is returned |
| Utow.ContentTypeCharset | future/src/main/java/io/jooby/internal/utow/UtowContext.java:155-162 | the header is the bare content type exactly when no charset is given; otherwise the charset follows ";charset=" after the content type |
| Utow.Context.SendError | future/src/main/java/io/jooby/internal/utow/UtowContext.java:188-191 | the cause is handed to the error handler once and the same context is returned |
| Javadoc.Process | docs/src/main/java/io/jooby/adoc/JavadocProcessor.java:36-95 | the link and the text built step by step are those of the declarative `Javadoc` |
| Javadoc.PartitionSegments | docs/src/main/java/io/jooby/adoc/JavadocProcessor.java:40-48 | the loop collects the class segments and the package segments, each in their original order |
| Javadoc.SegmentsPartitioned | docs/src/main/java/io/jooby/adoc/JavadocProcessor.java:39-53 | every segment goes to exactly one side: upper-case-initial ones to the class name, the rest to the package path |
| Javadoc.ClassLink | docs/src/main/java/io/jooby/adoc/JavadocProcessor.java:36-54 | the link up to the class page and the class name the loop builds |
| Javadoc.JavadocLinkShape | docs/src/main/java/io/jooby/adoc/JavadocProcessor.java:36-54 | the link begins with site + version + "/io/jooby/"; the page ends with the class name + ".html"; an anchor follows exactly when the first argument is a method or a constant name |
| Javadoc.AppendTypeArgs | docs/src/main/java/io/jooby/adoc/JavadocProcessor.java:71-87 | the loop appends the types read from "2", "3", … to the link and their simple names to the text, joined by ',' |
| Javadoc.TypeArgsConsecutive | docs/src/main/java/io/jooby/adoc/JavadocProcessor.java:71-87 | the types are the values under consecutive keys from "2", in order, up to the first missing key |
| Javadoc.SimpleNameSuffix | docs/src/main/java/io/jooby/adoc/JavadocProcessor.java:76-77 | the simple name is the suffix after the last '.' when one occurs past the first position, else the whole string |
| Javadoc.LastIndexOfFinds | docs/src/main/java/io/jooby/adoc/JavadocProcessor.java:76 | lastIndexOf gives the last occurrence, and -1 exactly when there is none |
| Javadoc.AppendAnchor | docs/src/main/java/io/jooby/adoc/JavadocProcessor.java:56-95 | the anchor and text appended after the class page are those of the declarative `Anchored` |
| Javadoc.MethodWithoutTypes | docs/src/main/java/io/jooby/adoc/JavadocProcessor.java:68-89 | a method with no "2" attribute gets the anchor "#m--" and the text "m()" |
| Javadoc.TextChoice | docs/src/main/java/io/jooby/adoc/JavadocProcessor.java:90-95 | outside the method case the text is the "text" attribute, else the first argument, else the class name |
| SignedSessions.SignedSessionStore.constructor | jooby/src/main/java/io/jooby/internal/SignedSessionStore.java:28-33 | the store keeps exactly its token collaborator, decoder and encoder, all final |
| SignedSessions.SignedSessionStore.NewSession | jooby/src/main/java/io/jooby/internal/SignedSessionStore.java:35-37 | a session with no id and no attributes, flagged new |
| SignedSessions.SignedSessionStore.FindSession | jooby/src/main/java/io/jooby/internal/SignedSessionStore.java:39-49 | the session `Find` decides from the collaborator's current token |
| SignedSessions.FindCharacterised | jooby/src/main/java/io/jooby/internal/SignedSessionStore.java:39-49 | a session is found exactly when the token decodes to a non-empty map; it then has the token as id, the decoded attributes and is not new; an empty decoding equals having no token |
| SignedSessions.SignedSessionStore.DeleteSession | jooby/src/main/java/io/jooby/internal/SignedSessionStore.java:51-53 | the token is cleared by one deleteToken call with no token, whatever the session |
| SignedSessions.SignedSessionStore.TouchSession | jooby/src/main/java/io/jooby/internal/SignedSessionStore.java:55-57 | exactly the encoding of the session's attributes is saved as the token |
| SignedSessions.SignedSessionStore.SaveSession | jooby/src/main/java/io/jooby/internal/SignedSessionStore.java:59-61 | nothing changes |
| SignedSessions.SignedSessionStore.RenewSessionId | jooby/src/main/java/io/jooby/internal/SignedSessionStore.java:63-65 | the same effect as touchSession: the encoded attributes are saved as the token |
| SignedSessions.TouchThenFind | jooby/src/main/java/io/jooby/internal/SignedSessionStore.java:39-57 | when the codec round-trips, a touched session is found again exactly when it has attributes, with the same attributes and the new token as id |
| SignedSessions.TouchThenFindSession | jooby/src/main/java/io/jooby/internal/SignedSessionStore.java:39-57 | for a token collaborator whose findToken returns the last saved token, and none after deleteToken, when the codec round-trips this session's attributes and the session has attributes: touch and then find returns an old session with those attributes, named by the new token |
| SignedSessions.DeleteThenFindSession | jooby/src/main/java/io/jooby/internal/SignedSessionStore.java:39-53 | for a token collaborator whose findToken returns the last saved token, and none after deleteToken: after deleteSession no session is found, whatever the decoder |

## Left out

- User code (handlers, `before` and `after` bodies) is a function of the context. Side effects it has on the context are not modelled.
- Only `Before` decorators and their `then` chains are representable; a hand-written `Decorator` lambda is not.
- `Handler.setRoute` is a no-op that returns the handler and is not modelled.
- The getters of `Route` are plain field reads; the model exposes the fields instead.
- The 8-argument `Route` constructor is not modelled, because it calls `Router.pathKeys`, which is not part of this model.
- The `NOT_FOUND`, `METHOD_NOT_ALLOWED` and `FAVICON` handlers are not modelled; they only forward to the context.
- `MediaType`, `Parser`, `Renderer` and `java.lang.reflect.Type` are reduced to a name or a value string. Content negotiation is not modelled.
- `String.toUpperCase`, `Character.isUpperCase` and `Character.isLowerCase` are modelled for ASCII letters only. Other Unicode letters and locale rules are not.
- `UtowContext` threading and I/O are left out: `body`, `worker`, `io`, `dispatch`, `detach`, the executors, `isInIoThread` and `name`.
- `UtowContext` methods that only forward to Undertow are left out: `statusCode`, `header(name, value)`, `header(name)`, `path`, `length`, `sendBytes`, `sendText`, `sendStatusCode` and `isResponseStarted`.
- The Undertow form parsers and `UtowUpload` are replaced by what each parser yields: the sequence of fields, or nothing when `parseBlocking` throws. The exception itself is not modelled, only that the call throws.
- `requireBlocking()` is not part of this model. Whether it throws on the exchange is a given flag of the context. `exchange.startBlocking()` is not modelled.
- Context.PutField: does not state that a file value is registered before it is put, because neither step can fail in the model, so the order cannot be observed.
- `Value.headers()` and `Value.queryString` are not modelled. The headers value is the map from header name to values, and a parsed query string is its source text.
- Context.Destroy: assumes that the handler built by `throwingConsumer(Upload::destroy).onFailure(...)` prints the exception and swallows it, so every upload is tried. `org.jooby.funzy.Throwing` is not part of this model. If `onFailure` rethrows instead, the real `destroy()` stops at the first failing upload and throws.
- FailuresReported: rests on the same assumption about `onFailure`.
- `Upload.destroy` is modelled by a given predicate saying which deletions fail. The printed stack trace is modelled as a list of reported uploads.
- The error handler is modelled as the list of causes handed to it.
- The javadoc phrase node (`createPhraseNode`) is not modelled. `DocGenerator.version()` is a parameter.
- Javadoc.Process: requires every dot-segment of the class name and a present first argument to be non-empty, because `charAt(0)` throws on an empty string there. The exception itself is not modelled.
- The encoding and signing behind the session store's encoder and decoder are given functions. `TouchThenFind` assumes the round trip only as a hypothesis.
- `SessionToken` is modelled as one token slot plus the list of calls it received: findToken returns the last saved token, and none after deleteToken. The source does not promise this of its collaborator. Its cookie handling is not modelled.
- TouchThenFindSession: holds only for a token collaborator that behaves as the modelled `SessionToken` slot, when the codec round-trips this session's attributes and the session has attributes. The source promises no round trip, and a session without attributes is not found again.
- DeleteThenFindSession: holds only for a token collaborator that behaves as the modelled `SessionToken` slot.
- `Session` is a value holding its id, attributes and new flag. Its other behaviour is not modelled.
- The test harness `JoobyRunner` is not part of this model; it starts servers.
- `ValueConverter` is not part of this model; it has no logic.
