# httputils router, modelled in Dafny

This project models the Go package `router` of `bgv/httputils`. It is a thin layer over the path
matcher `httprouter` and adds three things:

- **The per-request context store.** A process-wide map `ctxts` takes each in-flight
  `*http.Request` to a context that carries the path parameters. `Context(r)` reads the map.
  `Param(ctx, name)` reads one parameter.
- **The wrapper `handle`.** Every registered handler runs inside it. The wrapper folds the
  extracted parameters into a fresh cancellable context. It stores that context under the
  request, runs the handler, then deletes the entry. The cancel is deferred. The delete is not.
- **Prefix-composed routers.** A `Router` is a shared `httprouter.Router` plus a prefix.
  `WithPrefix` derives a router over the same table with a longer prefix. `Get`, `Head`,
  `Options`, `Post`, `Put`, `Patch` and `Del` each register `prefix + path` under their own
  method. `FileServe(dir)` returns a handler that sets the request path to the `filepath`
  parameter.

Files:

- `wrappers.dfy`: `Option` and `Result`.
- `contexts.dfy`: module `Contexts`. Holds the bindings, `Value`, `Param`, the `Store` class
  (the map `ctxts`), the `Request` class and `Populate` (the loop of `handle`).
- `routes.dfy`: module `Routes`. Holds the route table class, the `Router` value, `New`,
  `WithPrefix`, the seven registrations and the `FileServe` handler `ServeFiles`.
- `lifecycle.dfy`: module `Lifecycle`. Holds `Handle` (the wrapper) and a specification of its
  effect on the store (`AfterHandle`, `Replay`), with lemmas about leaked entries.
- `scenarios.dfy`: module `Scenarios`. Holds the cases of `router/router_test.go` and two
  `FileServe` cases, as client methods.

Modelling choices:

- A request is a `Request` object. The store is keyed by the object's identity, as Go keys
  `ctxts` by pointer.
- A context is `RequestContext(bindings, cancelled)`. The bindings are listed oldest first.
  `Value` searches from the newest binding, as a chain of `context.WithValue` does, so a later
  binding of a name hides an earlier one.
- `Param` returns `Err(NilContext)` when the context is nil, where Go panics on a method call
  through a nil interface. It returns `Err(MissingParameter)` when the name is unbound, where Go
  panics on the failed type assertion.
- A handler is a `Handler` value. `User(id, outcome)` is an opaque user handler: its only store
  access is reading its own entry, and it either returns or panics. `FileServer(dir)` is the
  handler of `FileServe`. It panics exactly when `filepath` is unbound.
- The global `ctxts` becomes a `Store` passed to `Handle`.
- The deferred `cancel()` is modelled on the stored value. If the entry is still in the store,
  `Store.Cancel` marks it cancelled. In Go, such a leftover context reports `Canceled`.
- The registration methods mutate the shared `RouteTable`. `Router` itself is a value, because
  Go never changes a `Router` after making it.

A panicking handler leaves its entry in the store. Only `cancel` is deferred
(router/router.go:34). The delete runs only after a normal return (router/router.go:44-48).
`Lifecycle.PanicLeavesEntry` shows that the entry stays.

## Model

| member | source | states |
|---|---|---|
| `Contexts.Value` | router/router.go:26-28 | the lookup finds nothing iff no binding has the name; otherwise it returns a bound value that no later binding of the name hides |
| `Contexts.Param` | router/router.go:25-28 | fails with NilContext iff there is no context, and with MissingParameter iff the name is unbound; never returns a default; any value returned is bound to the name |
| `Contexts.ParamOfDistinct` | router/router.go:36-44 | when names are distinct, `Param` returns v for a name iff the binding (name, v) was extracted |
| `Contexts.Store.constructor` | router/router.go:11-14 | the store starts empty |
| `Contexts.Store.Context` | router/router.go:16-21 | never fails; gives the zero value exactly when the request has no entry, otherwise the stored context |
| `Contexts.Store.Insert` | router/router.go:40-42 | the entry for the request becomes the context; other entries unchanged |
| `Contexts.Store.Delete` | router/router.go:46-48 | the request no longer has an entry; other entries unchanged |
| `Contexts.Store.Cancel` | router/router.go:33-34 | the deferred cancel marks the request's entry cancelled if it is still present; otherwise the store is unchanged; no other entry changes |
| `Contexts.Populate` | router/router.go:33-38 | the context built holds exactly the extracted parameters, in order, and is not cancelled |
| `Routes.RouteTable.Add` | router/router.go:72 | a registration appends exactly one route (method, pattern, handler); earlier routes unchanged |
| `Routes.New` | router/router.go:58-61 | empty prefix, fresh route table with no routes |
| `Routes.Router.WithPrefix` | router/router.go:63-66 | same table; prefix is the receiver's prefix followed by the argument |
| `Routes.Router.Pattern` | router/router.go:72 | the registered pattern is the prefix followed by the path, with no normalisation |
| `Routes.Router.Del` | router/router.go:70-73 | appends one DELETE route for prefix + path to the shared table, nothing else changes |
| `Routes.Router.Get` | router/router.go:75-78 | appends one GET route for prefix + path to the shared table, nothing else changes |
| `Routes.Router.Head` | router/router.go:80-83 | appends one HEAD route for prefix + path to the shared table, nothing else changes |
| `Routes.Router.Options` | router/router.go:85-88 | appends one OPTIONS route for prefix + path to the shared table, nothing else changes |
| `Routes.Router.Patch` | router/router.go:90-93 | appends one PATCH route for prefix + path to the shared table, nothing else changes |
| `Routes.Router.Post` | router/router.go:95-98 | appends one POST route for prefix + path to the shared table, nothing else changes |
| `Routes.Router.Put` | router/router.go:100-103 | appends one PUT route for prefix + path to the shared table, nothing else changes |
| `Routes.WithPrefixComposes` | router/router.go:64-66 | `WithPrefix(a).WithPrefix(b)` equals `WithPrefix(a + b)` |
| `Routes.SubRouterPattern` | router/router.go:64-73 | a derived router shares the parent's table and registers the pattern the parent would for prefix + path |
| `Routes.Router.FileServe` | router/router.go:110-114 | returns the file handler for `dir`, whatever the router's prefix |
| `Routes.ServeFiles` | router/router.go:115-117 | the request path becomes exactly the `filepath` binding; when that lookup fails the handler panics and the path is unchanged |
| `Lifecycle.OutcomeOf` | router/router.go:115-117 | a user handler ends as given; the file handler returns iff `filepath` is bound in its context |
| `Lifecycle.AfterHandle` | router/router.go:40-48 | after a normal return the request's entry is gone; after a panic it stays, cancelled; every other entry is as before |
| `Lifecycle.RunHandler` | router/router.go:44 | while the request's entry is its context, the handler ends as `OutcomeOf` says; only the file handler, when it returns, changes the request path, to the `filepath` binding |
| `Lifecycle.Handle` | router/router.go:31-50 | the handler sees its own context with exactly the extracted parameters; the store afterwards is `AfterHandle` of the store before; only the file handler changes the request path |
| `Lifecycle.ReplayStep` | router/router.go:31-50 | replaying one more request applies that request's `AfterHandle` to the store the earlier requests left |
| `Lifecycle.HandleAll` | router/router.go:31-50 | serving requests one after another through `Handle` leaves the store `Replay` describes, so the lemmas about `Replay` speak of the wrapper; a request served only by user handlers keeps its path |
| `Lifecycle.NoLeakWhenAllReturn` | router/router.go:40-48 | if every handler returns, a sequence of requests removes exactly their own entries and leaves all others intact |
| `Lifecycle.LeftoversPanicked` | router/router.go:44-48 | every entry left after a sequence of requests was there before or belongs to a request whose handler panicked |
| `Lifecycle.PanicLeavesEntry` | router/router.go:33-48 | a panicking handler's entry, cancelled, stays until a later request with the same identity is handled |
| `Lifecycle.Untouched` | router/router.go:40-48 | requests with other identities neither add, remove nor change a request's entry |
| `Scenarios.RegisterAll` | router/router_test.go:32-57 | the seven registrations on a fresh router record `/GET`, `/POST`, … under their own methods, in order |
| `Scenarios.RegisterUnderPrefix` | router/router_test.go:103-128 | registrations through `WithPrefix("/api")` land in the root's table as `/api/GET`, … |
| `Scenarios.UserParam` | router/router_test.go:175-196 | route `/user/:username` with path `/user/foo`: the handler reads `foo`, and the entry is gone afterwards |
| `Scenarios.StaticFile` | router/router.go:110-119 | the file handler under a `filepath` catch-all bound to `/img/a.png` serves path `/img/a.png` |
| `Scenarios.StaticFileWithoutParam` | router/router.go:115-117 | the file handler on a route without `filepath` panics, leaves the path unchanged and leaves its cancelled entry in the store |

## Left out

- The path matcher `httprouter` is not part of this model: its trie, `:name` and `*name` matching,
  404 and 405 responses, and the panics on conflicting routes or on a path not starting with
  `/`. The route table is only the list of registrations. The parameters a request receives are
  an input to `Handle`.
- `ServeHTTP` (router/router.go:105-108) only delegates to the matcher's dispatch, so it is not
  modelled.
- `http.FileServer` and `http.Dir` do file I/O (router/router.go:113, 117). Only the path rewrite
  is modelled. `FileServe`'s `dir` is carried in the handler value and is not used.
- `Routes.ServeFiles`: its path is the one set at router/router.go:116. The file server at line
  117 adds a leading `/` to a path that lacks one; that step is not modelled. A `*filepath`
  catch-all value always starts with `/`, so this matters only for a `:filepath` parameter.
- `sync.RWMutex` (router/router.go:12, 18-19, 40-48) exists for concurrency. Each store operation
  is atomic and requests are handled one after another. Isolation between concurrent requests
  appears only as: `Handle` shows each handler its own parameters whatever other entries exist.
- `context.WithCancel` is reduced to a `cancelled` flag on the stored context. Its `Done` channel,
  `Err` and the background root are not modelled.
- A user handler is opaque. It writes responses, may call anything, and may read its context.
  Only whether it returns or panics is modelled. Its writes to the request, such as assigning
  `r.URL.Path`, are not modelled. So `Lifecycle.RunHandler` and `Lifecycle.Handle` promise an
  unchanged path for `User` handlers only because of this simplification.
- The response writer and the mock types in router/router_test.go are not modelled.
