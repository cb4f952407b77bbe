/**
 * The `Router` of router/router.go: a shared route table (the library router
 * `httprouter.Router`, kept here only as the list of its registrations) and a
 * path prefix; `New`, `WithPrefix`, the seven method-specific registrations and
 * the handler returned by `FileServe`.
 */
module Routes {
  import opened Contexts

  /** The HTTP methods the router offers a registration for. */
  datatype Method = GET | HEAD | OPTIONS | POST | PUT | PATCH | DELETE

  /** How a handler ends: by returning, or by panicking before it returns. */
  datatype Outcome = Returned | Panicked

  /**
   * A handler passed to a registration. A user handler is opaque: it may read
   * its own request's context, and it ends as `outcome` says. `FileServer(dir)`
   * is the handler `FileServe(dir)` returns.
   */
  datatype Handler = User(id: nat, outcome: Outcome) | FileServer(dir: string)

  /** One registration: the HTTP method, the full pattern, and the handler `handle` wraps. */
  datatype Route = Route(verb: Method, pattern: string, handler: Handler)

  /** The library router, seen only as the registrations made on it, in order. */
  class RouteTable {
    var routes: seq<Route>

    /** `httprouter.New()`: no routes yet. */
    constructor ()
      ensures routes == []
    {
      routes := [];
    }

    /** `rtr.GET(pattern, h)` and its siblings: record one registration. */
    method Add(m: Method, pattern: string, h: Handler)
      modifies this
      ensures routes == old(routes) + [Route(m, pattern, h)]
    {
      routes := routes + [Route(m, pattern, h)];
    }
  }

  /** `New()`: an empty prefix over a fresh, empty route table. */
  method New() returns (r: Router)
    ensures fresh(r.table) && r.table.routes == [] && r.prefix == ""
  {
    var t := new RouteTable();
    r := Router(t, "");
  }

  /** A router never changes after it is made, so it is a value holding a table reference. */
  datatype Router = Router(table: RouteTable, prefix: string) {

    /** `WithPrefix(p)`: the same table, the receiver's prefix followed by `p`. */
    function WithPrefix(p: string): (r: Router)
      ensures r.table == table
      ensures |r.prefix| == |prefix| + |p| && r.prefix[..|prefix|] == prefix && r.prefix[|prefix|..] == p
    {
      Router(table, prefix + p)
    }

    /** The pattern a registration of `path` records: the prefix and `path`, not normalised. */
    function Pattern(path: string): (s: string)
      ensures |s| == |prefix| + |path| && s[..|prefix|] == prefix && s[|prefix|..] == path
    {
      prefix + path
    }

    /** `FileServe(dir)`: the handler that serves files from `dir`. */
    function FileServe(dir: string): (h: Handler)
      ensures h.FileServer? && h.dir == dir
    {
      FileServer(dir)
    }

    /** `Del(path, h)`: registers a DELETE route. */
    method Del(path: string, h: Handler)
      modifies table
      ensures table.routes == old(table.routes) + [Route(DELETE, Pattern(path), h)]
    {
      table.Add(DELETE, prefix + path, h);
    }

    /** `Get(path, h)`: registers a GET route. */
    method Get(path: string, h: Handler)
      modifies table
      ensures table.routes == old(table.routes) + [Route(GET, Pattern(path), h)]
    {
      table.Add(GET, prefix + path, h);
    }

    /** `Head(path, h)`: registers a HEAD route. */
    method Head(path: string, h: Handler)
      modifies table
      ensures table.routes == old(table.routes) + [Route(HEAD, Pattern(path), h)]
    {
      table.Add(HEAD, prefix + path, h);
    }

    /** `Options(path, h)`: registers an OPTIONS route. */
    method Options(path: string, h: Handler)
      modifies table
      ensures table.routes == old(table.routes) + [Route(OPTIONS, Pattern(path), h)]
    {
      table.Add(OPTIONS, prefix + path, h);
    }

    /** `Patch(path, h)`: registers a PATCH route. */
    method Patch(path: string, h: Handler)
      modifies table
      ensures table.routes == old(table.routes) + [Route(PATCH, Pattern(path), h)]
    {
      table.Add(PATCH, prefix + path, h);
    }

    /** `Post(path, h)`: registers a POST route. */
    method Post(path: string, h: Handler)
      modifies table
      ensures table.routes == old(table.routes) + [Route(POST, Pattern(path), h)]
    {
      table.Add(POST, prefix + path, h);
    }

    /** `Put(path, h)`: registers a PUT route. */
    method Put(path: string, h: Handler)
      modifies table
      ensures table.routes == old(table.routes) + [Route(PUT, Pattern(path), h)]
    {
      table.Add(PUT, prefix + path, h);
    }
  }

  /** Nested prefixes concatenate: `WithPrefix(a).WithPrefix(b)` is `WithPrefix(a + b)`. */
  lemma WithPrefixComposes(r: Router, a: string, b: string)
    ensures r.WithPrefix(a).WithPrefix(b) == r.WithPrefix(a + b)
  {
  }

  /**
   * A registration through a derived router records the pattern the parent
   * would record for the prefix followed by the path, in the very table the
   * parent uses, so it is visible through every router sharing that table.
   */
  lemma SubRouterPattern(r: Router, p: string, path: string)
    ensures r.WithPrefix(p).table == r.table
    ensures r.WithPrefix(p).Pattern(path) == r.Pattern(p + path)
  {
  }

  /**
   * The handler of `FileServe` (lines 115-118): the request path becomes the
   * `filepath` binding of the request's context; when that lookup panics the
   * path is left as it was and the handler does not return.
   */
  method ServeFiles(store: Store, req: Request) returns (outcome: Outcome)
    modifies req
    ensures var p := Param(store.Context(req), "filepath");
      && (p.Ok? ==> outcome == Returned && req.path == p.value)
      && (p.Err? ==> outcome == Panicked && req.path == old(req.path))
  {
    var p := Param(store.Context(req), "filepath");
    if p.Ok? {
      req.path := p.value;
      outcome := Returned;
    } else {
      outcome := Panicked;
    }
  }
}
