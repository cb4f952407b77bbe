/**
 * The per-request context store of router/router.go: the process-wide map
 * `ctxts` from a request to its context, `Context(r)` and `Param(ctx, p)`,
 * and the loop of `handle` that folds the extracted parameters into a context.
 */
module Contexts {
  import opened Wrappers

  /** One parameter extracted by the path matcher, e.g. `username` bound to `foo`. */
  datatype Binding = Binding(key: string, value: string)

  /**
   * A context built by `handle`: the bindings added with `context.WithValue`,
   * oldest first, and whether the cancel function of its root has run.
   */
  datatype RequestContext = RequestContext(bindings: seq<Binding>, cancelled: bool)

  /** The two ways `Param` panics. */
  datatype ParamError =
    | NilContext        // the context is nil: `Context(r)` found no entry
    | MissingParameter  // the name is unbound: the type assertion on nil fails

  /** An in-flight request; the store is keyed by its identity, as Go keys it by pointer. */
  class Request {
    var path: string

    constructor (path: string)
      ensures this.path == path
    {
      this.path := path;
    }
  }

  /** No two bindings share a name, as the path matcher guarantees for one route. */
  ghost predicate KeysDistinct(bindings: seq<Binding>) {
    forall i, j :: 0 <= i < j < |bindings| ==> bindings[i].key != bindings[j].key
  }

  /**
   * `ctx.Value(param(key))`: a chain of `WithValue` contexts is searched from
   * the newest binding outwards, so the last binding of `key` wins.
   */
  function Value(bindings: seq<Binding>, key: string): (v: Option<string>)
    ensures v.None? <==> forall i :: 0 <= i < |bindings| ==> bindings[i].key != key
    ensures v.Some? ==>
      exists i :: 0 <= i < |bindings| && bindings[i] == Binding(key, v.value) &&
        forall j :: i < j < |bindings| ==> bindings[j].key != key
    decreases |bindings|
  {
    if bindings == [] then None
    else if bindings[|bindings| - 1].key == key then Some(bindings[|bindings| - 1].value)
    else
      var front := bindings[..|bindings| - 1];
      assert forall i :: 0 <= i < |front| ==> front[i] == bindings[i];
      Value(front, key)
  }

  /** `Param(ctx, p)`: the string bound to `name`, or the panic it raises. */
  function Param(ctx: Option<RequestContext>, name: string): (r: Result<string, ParamError>)
    ensures r == Err(NilContext) <==> ctx.None?
    ensures r == Err(MissingParameter) <==>
      ctx.Some? && forall i :: 0 <= i < |ctx.value.bindings| ==> ctx.value.bindings[i].key != name
    ensures r.Ok? ==> ctx.Some? && Binding(name, r.value) in ctx.value.bindings
  {
    match ctx
    case None => Err(NilContext)
    case Some(c) =>
      match Value(c.bindings, name)
      case None => Err(MissingParameter)
      case Some(v) => Ok(v)
  }

  /**
   * With distinct names, `Param` returns exactly the value bound to each name
   * and fails on every name that is not bound.
   */
  lemma ParamOfDistinct(bindings: seq<Binding>, cancelled: bool, name: string, v: string)
    requires KeysDistinct(bindings)
    ensures Param(Some(RequestContext(bindings, cancelled)), name) == Ok(v) <==> Binding(name, v) in bindings
  {
  }

  /** The map `ctxts`, with its operations taken one at a time (the lock is left out). */
  class Store {
    var entries: map<Request, RequestContext>

    constructor ()
      ensures entries == map[]
    {
      entries := map[];
    }

    /** `Context(r)`: never fails; the zero value (nil) when `r` has no entry. */
    function Context(req: Request): (c: Option<RequestContext>)
      reads this
      ensures c.None? <==> req !in entries
      ensures c.Some? ==> c.value == entries[req]
    {
      if req in entries then Some(entries[req]) else None
    }

    /** `ctxts[r] = ctx`. */
    method Insert(req: Request, ctx: RequestContext)
      modifies this
      ensures entries == old(entries)[req := ctx]
      ensures Context(req) == Some(ctx)
      ensures forall q :: q != req && q in old(entries) ==> Context(q) == Some(old(entries)[q])
    {
      entries := entries[req := ctx];
    }

    /** `delete(ctxts, r)`. */
    method Delete(req: Request)
      modifies this
      ensures entries == old(entries) - {req}
      ensures Context(req) == None
      ensures forall q :: q != req && q in old(entries) ==> Context(q) == Some(old(entries)[q])
    {
      entries := entries - {req};
    }

    /**
     * The deferred `cancel()`: it cancels the context stored for `req`, if
     * that entry is still there; the store's keys do not change.
     */
    method Cancel(req: Request)
      modifies this
      ensures entries ==
        if req in old(entries) then old(entries)[req := old(entries)[req].(cancelled := true)]
        else old(entries)
    {
      if req in entries {
        entries := entries[req := entries[req].(cancelled := true)];
      }
    }
  }

  /**
   * The loop of `handle` (lines 33-38): start from a fresh, uncancelled
   * context and add the extracted parameters one by one, in order.
   */
  method Populate(params: seq<Binding>) returns (ctx: RequestContext)
    ensures ctx.bindings == params && !ctx.cancelled
  {
    ctx := RequestContext([], false);
    var i := 0;
    while i < |params|
      invariant 0 <= i <= |params|
      invariant ctx == RequestContext(params[..i], false)
    {
      ctx := ctx.(bindings := ctx.bindings + [params[i]]);
      i := i + 1;
    }
    assert params[..i] == params;
  }
}
