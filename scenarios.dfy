/**
 * The cases of router/router_test.go, restated as clients that can rely on
 * the contracts alone, plus the static-file case and the panicking case.
 */
module Scenarios {
  import opened Wrappers
  import opened Contexts
  import opened Routes
  import opened Lifecycle

  /** All seven registrations on a fresh router record their paths unchanged. */
  method RegisterAll() returns (r: Router)
    ensures r.prefix == ""
    ensures r.table.routes == [
      Route(GET, "/GET", User(0, Returned)), Route(HEAD, "/GET", User(1, Returned)),
      Route(OPTIONS, "/GET", User(2, Returned)), Route(POST, "/POST", User(3, Returned)),
      Route(PUT, "/PUT", User(4, Returned)), Route(PATCH, "/PATCH", User(5, Returned)),
      Route(DELETE, "/DELETE", User(6, Returned))]
  {
    r := New();
    r.Get("/GET", User(0, Returned));
    r.Head("/GET", User(1, Returned));
    r.Options("/GET", User(2, Returned));
    r.Post("/POST", User(3, Returned));
    r.Put("/PUT", User(4, Returned));
    r.Patch("/PATCH", User(5, Returned));
    r.Del("/DELETE", User(6, Returned));
  }

  /**
   * Registrations through `WithPrefix("/api")` land in the root's table under
   * `/api/...`, so the root router sees them too.
   */
  method RegisterUnderPrefix() returns (root: Router, api: Router)
    ensures api.table == root.table && root.prefix == "" && api.prefix == "/api"
    ensures root.table.routes == [
      Route(GET, "/api/GET", User(0, Returned)), Route(HEAD, "/api/GET", User(1, Returned)),
      Route(OPTIONS, "/api/GET", User(2, Returned)), Route(POST, "/api/POST", User(3, Returned)),
      Route(PUT, "/api/PUT", User(4, Returned)), Route(PATCH, "/api/PATCH", User(5, Returned)),
      Route(DELETE, "/api/DELETE", User(6, Returned))]
  {
    root := New();
    api := root.WithPrefix("/api");
    assert api.prefix == "/api";
    assert api.Pattern("/GET") == "/api/GET" && api.Pattern("/POST") == "/api/POST";
    assert api.Pattern("/PUT") == "/api/PUT" && api.Pattern("/PATCH") == "/api/PATCH";
    assert api.Pattern("/DELETE") == "/api/DELETE";
    api.Get("/GET", User(0, Returned));
    api.Head("/GET", User(1, Returned));
    api.Options("/GET", User(2, Returned));
    api.Post("/POST", User(3, Returned));
    api.Put("/PUT", User(4, Returned));
    api.Patch("/PATCH", User(5, Returned));
    api.Del("/DELETE", User(6, Returned));
  }

  /**
   * Route `/user/:username`, request `/user/foo`: inside the handler the
   * parameter reads `foo`, and after it returns the request has no entry.
   */
  method UserParam() returns (username: Result<string, ParamError>, leftover: Option<RequestContext>)
    ensures username == Ok("foo")
    ensures leftover == None
  {
    var r := New();
    r.Get("/user/:username", User(0, Returned));
    var store := new Store();
    var req := new Request("/user/foo");
    var seen, o := Handle(store, req, [Binding("username", "foo")], User(0, Returned));
    username := Param(seen, "username");
    leftover := store.Context(req);
  }

  /**
   * `FileServe` under `/static/` with the catch-all `filepath`, request `/static/img/a.png`: the
   * path handed to the file server is `/img/a.png`.
   */
  method StaticFile() returns (served: string, outcome: Outcome)
    ensures served == "/img/a.png" && outcome == Returned
  {
    var r := New();
    var h := r.FileServe("/srv/www");
    r.Get("/static/*filepath", h);
    var store := new Store();
    var req := new Request("/static/img/a.png");
    var seen, o := Handle(store, req, [Binding("filepath", "/img/a.png")], h);
    served, outcome := req.path, o;
  }

  /**
   * `FileServe` under a route without a `filepath` catch-all: `Param` panics, and because
   * only `cancel` is deferred the request's entry stays, cancelled.
   */
  method StaticFileWithoutParam() returns (outcome: Outcome, left: Option<RequestContext>, path: string)
    ensures outcome == Panicked
    ensures left == Some(RequestContext([Binding("name", "a.png")], true))
    ensures path == "/static/a.png"
  {
    var store := new Store();
    var req := new Request("/static/a.png");
    var seen, o := Handle(store, req, [Binding("name", "a.png")], FileServer("/srv/www"));
    outcome, left, path := o, store.Context(req), req.path;
  }
}
