/**
 * The wrapper `handle` of router/router.go (lines 31-50): build the context,
 * store it under the request, run the handler, delete the entry. The cancel
 * function is deferred, the delete is not: a handler that panics leaves its
 * entry behind.
 */
module Lifecycle {
  import opened Wrappers
  import opened Contexts
  import opened Routes

  /** How a handler ends when its request's context is `ctx`. */
  function OutcomeOf(h: Handler, ctx: RequestContext): (o: Outcome)
    ensures h.User? ==> o == h.outcome
    ensures h.FileServer? ==> (o == Returned <==> Param(Some(ctx), "filepath").Ok?)
  {
    match h
    case User(_, outcome) => outcome
    case FileServer(_) =>
      if Param(Some(ctx), "filepath").Ok? then Returned else Panicked
  }

  /** The store after one `handle` call for `req` whose parameters were `params`. */
  function AfterHandle(entries: map<Request, RequestContext>, req: Request, params: seq<Binding>, o: Outcome)
    : (e: map<Request, RequestContext>)
    ensures o == Returned ==> e.Keys == entries.Keys - {req}
    ensures o == Panicked ==> e.Keys == entries.Keys + {req} && e[req] == RequestContext(params, true)
    ensures forall q | q in e && q != req :: e[q] == entries[q]
  {
    if o == Returned then entries - {req}
    else entries[req := RequestContext(params, true)]
  }

  /**
   * The call `handlerFunc(w, r)` (line 44), while `Context(req)` gives `ctx`:
   * a user handler only reads its entry; the file handler rewrites the path.
   */
  method RunHandler(store: Store, req: Request, h: Handler, ctx: RequestContext) returns (outcome: Outcome)
    requires store.Context(req) == Some(ctx)
    modifies req
    ensures outcome == OutcomeOf(h, ctx)
    ensures h.FileServer? && outcome == Returned ==> req.path == Value(ctx.bindings, "filepath").value
    ensures h.User? || outcome == Panicked ==> req.path == old(req.path)
  {
    match h {
      case User(_, o) =>
        outcome := o;
      case FileServer(_) =>
        outcome := ServeFiles(store, req);
    }
  }

  /**
   * One call of the wrapped handler for `req`, given the parameters the path
   * matcher extracted. `seen` is what `Context(req)` gives the handler while
   * it runs.
   */
  method Handle(store: Store, req: Request, params: seq<Binding>, h: Handler)
    returns (seen: Option<RequestContext>, outcome: Outcome)
    modifies store, req
    ensures seen == Some(RequestContext(params, false))
    ensures outcome == OutcomeOf(h, RequestContext(params, false))
    ensures store.entries == AfterHandle(old(store.entries), req, params, outcome)
    ensures h.FileServer? && outcome == Returned ==> req.path == Value(params, "filepath").value
    ensures h.User? || outcome == Panicked ==> req.path == old(req.path)
  {
    var ctx := Populate(params);
    store.Insert(req, ctx);
    seen := store.Context(req);
    outcome := RunHandler(store, req, h, ctx);
    if outcome == Returned {
      store.Delete(req);
    }
    store.Cancel(req);
  }

  /** One request served by the router: who, with which parameters, by which handler. */
  datatype Run = Run(req: Request, params: seq<Binding>, handler: Handler)

  function RunOutcome(run: Run): Outcome {
    OutcomeOf(run.handler, RequestContext(run.params, false))
  }

  /** The store after the runs, one after another, starting from `entries`. */
  function Replay(entries: map<Request, RequestContext>, runs: seq<Run>): map<Request, RequestContext>
    decreases |runs|
  {
    if runs == [] then entries
    else Replay(AfterHandle(entries, runs[0].req, runs[0].params, RunOutcome(runs[0])), runs[1..])
  }

  ghost function Requests(runs: seq<Run>): set<Request> {
    set i | 0 <= i < |runs| :: runs[i].req
  }

  ghost function PanickedRequests(runs: seq<Run>): set<Request> {
    set i | 0 <= i < |runs| && RunOutcome(runs[i]) == Panicked :: runs[i].req
  }

  /** Replaying one more run applies its `AfterHandle` to what the earlier runs left. */
  lemma {:induction false} ReplayStep(entries: map<Request, RequestContext>, runs: seq<Run>, run: Run)
    ensures Replay(entries, runs + [run]) ==
      AfterHandle(Replay(entries, runs), run.req, run.params, RunOutcome(run))
    decreases |runs|
  {
    if runs == [] {
      assert runs + [run] == [run];
    } else {
      var next := AfterHandle(entries, runs[0].req, runs[0].params, RunOutcome(runs[0]));
      assert (runs + [run])[1..] == runs[1..] + [run];
      ReplayStep(next, runs[1..], run);
    }
  }

  /** Every run for `r` has a user handler, so none of them rewrites its path. */
  ghost predicate UserOnly(runs: seq<Run>, r: Request) {
    forall i | 0 <= i < |runs| && runs[i].req == r :: runs[i].handler.User?
  }

  /**
   * Requests served one after another by the wrapper: the store ends as
   * `Replay` says, so the lemmas below are about `Handle` itself. A request
   * served only by user handlers keeps its path.
   */
  method HandleAll(store: Store, runs: seq<Run>)
    modifies store, set i | 0 <= i < |runs| :: runs[i].req
    ensures store.entries == Replay(old(store.entries), runs)
    ensures forall i | 0 <= i < |runs| && UserOnly(runs, runs[i].req) :: runs[i].req.path == old(runs[i].req.path)
  {
    var i := 0;
    while i < |runs|
      invariant 0 <= i <= |runs|
      invariant store.entries == Replay(old(store.entries), runs[..i])
      invariant forall j | 0 <= j < |runs| && UserOnly(runs, runs[j].req) :: runs[j].req.path == old(runs[j].req.path)
    {
      var run := runs[i];
      var seen, outcome := Handle(store, run.req, run.params, run.handler);
      ReplayStep(old(store.entries), runs[..i], run);
      assert runs[..i + 1] == runs[..i] + [run];
      i := i + 1;
    }
    assert runs[..i] == runs;
  }

  /** When every handler returns, no run leaves an entry, and every other entry stays as it was. */
  lemma {:induction false} NoLeakWhenAllReturn(entries: map<Request, RequestContext>, runs: seq<Run>)
    requires forall i :: 0 <= i < |runs| ==> RunOutcome(runs[i]) == Returned
    ensures Replay(entries, runs) == entries - Requests(runs)
    decreases |runs|
  {
    if runs != [] {
      var next := AfterHandle(entries, runs[0].req, runs[0].params, Returned);
      NoLeakWhenAllReturn(next, runs[1..]);
      assert Requests(runs) == {runs[0].req} + Requests(runs[1..]) by {
        forall q | q in Requests(runs) ensures q in {runs[0].req} + Requests(runs[1..]) {
          var i :| 0 <= i < |runs| && runs[i].req == q;
          if i > 0 { assert runs[1..][i - 1].req == q; }
        }
      }
    }
  }

  /** Every entry left after the runs was there before or belongs to a handler that panicked. */
  lemma {:induction false} LeftoversPanicked(entries: map<Request, RequestContext>, runs: seq<Run>)
    ensures Replay(entries, runs).Keys <= entries.Keys + PanickedRequests(runs)
    decreases |runs|
  {
    if runs != [] {
      var next := AfterHandle(entries, runs[0].req, runs[0].params, RunOutcome(runs[0]));
      LeftoversPanicked(next, runs[1..]);
      forall i | 0 <= i < |runs| - 1 && RunOutcome(runs[1..][i]) == Panicked
        ensures runs[1..][i].req in PanickedRequests(runs)
      {
        assert runs[1..][i] == runs[i + 1];
      }
    }
  }

  /**
   * A handler that panics leaves its (cancelled) entry in the store, and it
   * stays there until a later request with the same identity is handled.
   */
  lemma {:induction false} PanicLeavesEntry(entries: map<Request, RequestContext>, runs: seq<Run>, k: nat)
    requires k < |runs| && RunOutcome(runs[k]) == Panicked
    requires forall j :: k < j < |runs| ==> runs[j].req != runs[k].req
    ensures runs[k].req in Replay(entries, runs)
    ensures Replay(entries, runs)[runs[k].req] == RequestContext(runs[k].params, true)
    decreases |runs|
  {
    var next := AfterHandle(entries, runs[0].req, runs[0].params, RunOutcome(runs[0]));
    if k == 0 {
      Untouched(next, runs[1..], runs[0].req);
    } else {
      PanicLeavesEntry(next, runs[1..], k - 1);
    }
  }

  /** Runs for other requests do not touch the entry of `q`. */
  lemma {:induction false} Untouched(entries: map<Request, RequestContext>, runs: seq<Run>, q: Request)
    requires forall j :: 0 <= j < |runs| ==> runs[j].req != q
    ensures q in Replay(entries, runs) <==> q in entries
    ensures q in entries ==> Replay(entries, runs)[q] == entries[q]
    decreases |runs|
  {
    if runs != [] {
      var next := AfterHandle(entries, runs[0].req, runs[0].params, RunOutcome(runs[0]));
      Untouched(next, runs[1..], q);
    }
  }
}
