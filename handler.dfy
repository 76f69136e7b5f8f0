/** The accumulator both reconcilers share: the global `ExtensionHandler`
    (`eh`) of the extension utility library, seen only through the calls the
    two reconcilers make on it. */
module Handler {
  import opened Json

  datatype Log = Log(title: string, isError: bool)

  /** The return an invocation declares. */
  datatype Ret =
      /** `eh.declare_return(200, progress, success=..., error_code=...)` */
    | Declared(progress: int, success: bool, errorCode: Option<string>)
      /** `eh.perm_error(message, progress)`; the progress is absent when the call omits it */
    | PermError(message: string, permProgress: Option<int>)
      /** `eh.retry_error(message)` */
    | RetryError(message: string)
      /** `handle_common_errors(e, eh, message, progress, perm_errors)`: how the
          library classifies `code` against the list is not modelled */
    | CommonError(message: string, code: string, progress: int, permErrors: seq<string>)

  /** A mutating call to the container registry: the API name and the
      request parameters. */
  datatype Request = Request(api: string, params: Dict)

  /** A nested reconciler invoked through `eh.invoke_extension`. */
  datatype Invocation = Invocation(childKey: string, componentDef: Dict, progressStart: int, progressEnd: int)

  /** Everything `eh` holds; `trace` lists the handlers that ran, in order. */
  datatype Context = Context(
    props: map<string, Json>,
    links: map<string, Json>,
    state: map<string, Json>,
    artifacts: map<string, Json>,
    ops: map<string, Json>,
    ret: Option<Ret>,
    logs: seq<Log>,
    requests: seq<Request>,
    invocations: seq<Invocation>,
    trace: seq<string>)

  const Empty := Context(map[], map[], map[], map[], map[], None, [], [], [], [])

  /** The payload of an op that carries none. */
  const NoPayload := JNull

  /** The top-level `except` of a `lambda_handler`: an "Unexpected Error"
      log and a declared return with progress 0 whose error code is the
      exception's text. */
  function Crash(v: Context, msg: string): (r: Context)
    ensures r.ret == Some(Declared(0, false, Some(msg)))
    ensures r.logs == v.logs + [Log("Unexpected Error", true)]
    ensures r == v.(logs := r.logs, ret := r.ret)
  {
    v.(logs := v.logs + [Log("Unexpected Error", true)]).(ret := Some(Declared(0, false, Some(msg))))
  }

  class ExtensionHandler {
    var props: map<string, Json>
    var links: map<string, Json>
    var state: map<string, Json>
    var artifacts: map<string, Json>
    var ops: map<string, Json>
    var ret: Option<Ret>
    var logs: seq<Log>
    var requests: seq<Request>
    var invocations: seq<Invocation>
    var trace: seq<string>

    function Current(): Context
      reads this
    {
      Context(props, links, state, artifacts, ops, ret, logs, requests, invocations, trace)
    }

    constructor ()
      ensures Current() == Empty
    {
      props, links, state, artifacts, ops := map[], map[], map[], map[], map[];
      ret, logs, requests, invocations, trace := None, [], [], [], [];
    }

    /** `eh.add_op(name, payload)`: the last payload for a name wins. */
    method AddOp(name: string, payload: Json)
      modifies this
      ensures Current() == old(Current()).(ops := old(ops)[name := payload])
    {
      ops := ops[name := payload];
    }

    method AddOps(m: map<string, Json>)
      modifies this
      ensures Current() == old(Current()).(ops := old(ops) + m)
    {
      ops := ops + m;
    }

    /** `eh.add_props(m)`: a dict update of the props. */
    method AddProps(m: map<string, Json>)
      modifies this
      ensures Current() == old(Current()).(props := old(props) + m)
    {
      props := props + m;
    }

    method AddLinks(m: map<string, Json>)
      modifies this
      ensures Current() == old(Current()).(links := old(links) + m)
    {
      links := links + m;
    }

    method AddState(m: map<string, Json>)
      modifies this
      ensures Current() == old(Current()).(state := old(state) + m)
    {
      state := state + m;
    }

    method AddArtifacts(m: map<string, Json>)
      modifies this
      ensures Current() == old(Current()).(artifacts := old(artifacts) + m)
    {
      artifacts := artifacts + m;
    }

    method AddLog(title: string, isError: bool)
      modifies this
      ensures Current() == old(Current()).(logs := old(logs) + [Log(title, isError)])
    {
      logs := logs + [Log(title, isError)];
    }

    /** Declares the return; a later declaration replaces an earlier one. */
    method Declare(r: Ret)
      modifies this
      ensures Current() == old(Current()).(ret := Some(r))
    {
      ret := Some(r);
    }

    method Send(api: string, params: Dict)
      modifies this
      ensures Current() == old(Current()).(requests := old(requests) + [Request(api, params)])
    {
      requests := requests + [Request(api, params)];
    }

    /** `eh.invoke_extension(...)`: records the call and stores the child's
        props under its key. */
    method Invoke(childKey: string, componentDef: Dict, progressStart: int, progressEnd: int, childProps: Json)
      modifies this
      ensures Current() == old(Current()).(
        invocations := old(invocations) + [Invocation(childKey, componentDef, progressStart, progressEnd)],
        props := old(props)[childKey := childProps])
    {
      invocations := invocations + [Invocation(childKey, componentDef, progressStart, progressEnd)];
      props := props[childKey := childProps];
    }

    /** The top-level `except`: see `Crash`. */
    method Fail(msg: string)
      modifies this
      ensures Current() == Crash(old(Current()), msg)
    {
      logs := logs + [Log("Unexpected Error", true)];
      ret := Some(Declared(0, false, Some(msg)));
    }

    /** Marks the handler `name` as running (the `@ext` gate let it through). */
    method Enter(name: string)
      modifies this
      ensures Current() == old(Current()).(trace := old(trace) + [name])
    {
      trace := trace + [name];
    }
  }

  /** The handlers of `order` that are present in `ops`, in `order`'s
      order: the trace of a fixed call sequence gated on the op table. */
  function Filter(order: seq<string>, ops: set<string>): (r: seq<string>)
    ensures forall x :: x in r ==> x in order && x in ops
  {
    if order == [] then []
    else Filter(order[..|order| - 1], ops) + (if order[|order| - 1] in ops then [order[|order| - 1]] else [])
  }

  /** A handler of the sequence whose op is enqueued is in the trace. */
  lemma {:induction false} FilterHas(order: seq<string>, ops: set<string>, x: string)
    requires x in order && x in ops
    ensures x in Filter(order, ops)
  {
    var n := |order| - 1;
    if order[n] != x {
      assert x in order[..n] by {
        var m :| 0 <= m < |order| && order[m] == x;
        assert order[..n][m] == x;
      }
      FilterHas(order[..n], ops, x);
    }
  }

  /** The trace of a prefix of the call sequence is a prefix of the trace. */
  lemma {:induction false} FilterPrefix(order: seq<string>, k: nat, ops: set<string>)
    requires k <= |order|
    ensures Filter(order[..k], ops) <= Filter(order, ops)
  {
    if k < |order| {
      var n := |order| - 1;
      assert order[..n][..k] == order[..k];
      FilterPrefix(order[..n], k, ops);
    } else {
      assert order[..k] == order;
    }
  }

  /** A handler the sequence calls twice in a row runs twice when enqueued. */
  lemma FilterTwice(x: string, ops: set<string>)
    requires x in ops
    ensures Filter([x, x], ops) == [x, x]
  {
    assert [x, x][..1] == [x] && [x][..0] == [];
    assert Filter([x], ops) == [x];
  }

  /** With no ops enqueued, no handler runs. */
  lemma {:induction false} FilterNone(order: seq<string>)
    ensures Filter(order, {}) == []
  {
    if order != [] {
      FilterNone(order[..|order| - 1]);
    }
  }

  lemma {:induction false} FilterSame(order: seq<string>, a: set<string>, b: set<string>)
    requires forall x :: x in order ==> (x in a <==> x in b)
    ensures Filter(order, a) == Filter(order, b)
  {
    if order != [] {
      FilterSame(order[..|order| - 1], a, b);
    }
  }

  /** One gated handler at position `k` of the call sequence: if every op it
      adds names a handler later in the sequence (or none at all), the trace
      stays the filter of the sequence by the final op table. */
  lemma GatedStep(order: seq<string>, k: nat, trace: seq<string>, ops: set<string>, trace': seq<string>, ops': set<string>)
    requires k < |order|
    requires trace == Filter(order[..k], ops)
    requires ops <= ops'
    requires forall x :: x in ops' && x in order[..k + 1] ==> x in ops
    requires trace' == trace + (if order[k] in ops then [order[k]] else [])
    ensures trace' == Filter(order[..k + 1], ops')
  {
    assert order[..k + 1][..k] == order[..k];
    forall x | x in order[..k] ensures x in ops <==> x in ops' {
      var m :| 0 <= m < k && order[..k][m] == x;
      assert order[..k + 1][m] == x;

    }
    FilterSame(order[..k], ops, ops');
    var s := order[..k + 1];
    assert s[|s| - 1] == order[k] && s[..|s| - 1] == order[..k];
    assert order[k] in s;

  }

  /** A handler gated on `name`: it runs iff its name is in the op table,
      removes no op and adds only ops from `enq`. */
  predicate Gated(v: Context, r: Context, name: string, enq: set<string>) {
    r.trace == v.trace + (if name in v.ops then [name] else []) &&
    v.ops.Keys <= r.ops.Keys && r.ops.Keys <= v.ops.Keys + enq
  }

  /** A step leaves op `k` as it was: present or absent, and its payload. */
  predicate KeepsOp(v: Context, r: Context, k: string) {
    (k in r.ops <==> k in v.ops) && (k in v.ops ==> r.ops[k] == v.ops[k])
  }

  /** The trace of a gated handler at position `k` of the call sequence,
      when it adds no op at or before its own position. */
  lemma GatedAt(order: seq<string>, k: nat, v: Context, r: Context, enq: set<string>)
    requires k < |order|
    requires v.trace == Filter(order[..k], v.ops.Keys)
    requires Gated(v, r, order[k], enq)
    requires forall x :: x in enq ==> x !in order[..k + 1]
    ensures r.trace == Filter(order[..k + 1], r.ops.Keys)
  {
    GatedStep(order, k, v.trace, v.ops.Keys, r.trace, r.ops.Keys);
  }

  /** The last three handlers of the call sequence, each gated and adding no
      op, complete the trace to the filter of the whole sequence. */
  lemma GatedLastThree(order: seq<string>, v: Context, v1: Context, v2: Context, v3: Context)
    requires |order| >= 3
    requires v.trace == Filter(order[..|order| - 3], v.ops.Keys)
    requires Gated(v, v1, order[|order| - 3], {}) && Gated(v1, v2, order[|order| - 2], {})
    requires Gated(v2, v3, order[|order| - 1], {})
    ensures v3.trace == Filter(order, v3.ops.Keys)
  {
    var n := |order| - 3;
    GatedAt(order, n, v, v1, {});
    GatedAt(order, n + 1, v1, v2, {});
    GatedAt(order, n + 2, v2, v3, {});
    assert order[..n + 3] == order;
  }

  /** A sequence that starts with the same handler twice, enqueued, has a
      trace that starts with it twice. */
  lemma FilterHeadTwice(order: seq<string>, ops: set<string>, x: string)
    requires |order| >= 2 && order[0] == x && order[1] == x && x in ops
    ensures |Filter(order, ops)| >= 2 && Filter(order, ops)[..2] == [x, x]
  {
    FilterPrefix(order, 2, ops);
    assert order[..2] == [x, x];
    FilterTwice(x, ops);
  }

  /** In a filtered trace, a handler that occurs once in the call sequence
      before another occurs before it in the trace too. */
  lemma {:induction false} FilterKeepsOrder(order: seq<string>, ops: set<string>, p: nat, q: nat, i: nat, j: nat)
    requires p < q < |order|
    requires forall m :: 0 <= m < |order| && m != p ==> order[m] != order[p]
    requires forall m :: 0 <= m < |order| && m != q ==> order[m] != order[q]
    requires i < |Filter(order, ops)| && j < |Filter(order, ops)|
    requires Filter(order, ops)[i] == order[p] && Filter(order, ops)[j] == order[q]
    ensures i < j
  {
    var n := |order| - 1;
    var pre := order[..n];
    var f := Filter(pre, ops);
    if q == n {
      // the last element of the trace is order[n]; order[p] lies in f
      assert Filter(order, ops) == f + [order[n]];
      if i >= |f| {
        assert false;
      }
      if j < |f| {
        assert false;
      }
    } else {
      assert Filter(order, ops)[..|f|] == f;
      assert order[q] != order[n];
      assert order[p] != order[n];
      assert i < |f| && j < |f|;
      assert f[i] == order[p] && f[j] == order[q];
      FilterKeepsOrder(pre, ops, p, q, i, j);
    }
  }

  /** Handlers past position `k` whose ops are absent add nothing to the trace. */
  lemma {:induction false} FilterDrop(order: seq<string>, k: nat, ops: set<string>)
    requires k <= |order|
    requires forall m :: k <= m < |order| ==> order[m] !in ops
    ensures Filter(order, ops) == Filter(order[..k], ops)
  {
    if k < |order| {
      var n := |order| - 1;
      assert order[..n][..k] == order[..k];
      FilterDrop(order[..n], k, ops);
    } else {
      assert order[..k] == order;
    }
  }
}
