/** The adapter between nodnod and FastAPI routes (fastapi_nodnod/core.py).

    At decoration time a handler's parameters are split into node-injected
    ones and framework-native ones; a handler with no node parameter is
    returned as it is. Otherwise the agent is built once over the node
    classes, the signature shown to the framework loses every node parameter
    and every parameter named `request` and gains one keyword-only `request`,
    and the handler is wrapped. Each call of the wrapper creates one scope,
    pushes the request into it, runs the agent once, overlays the values
    found onto the framework's keyword arguments, calls the handler, and
    exits the scope. */
module Core {
  import opened Py
  import opened Scopes

  /** `starlette.requests.Request`: not a node, and the key the request is
      pushed under. */
  const RequestClass: PyClass := PyClass("starlette.requests.Request", NotSubclass, None)
  const RequestKey: TypeKey := RequestClass.key
  const RequestName: string := "request"

  // ---------------------------------------------------------------------
  // Which parameters are node-injected

  /** `_is_node`: the annotation is a class and `issubclass(ann, Node)`
      holds; a `TypeError` from the check counts as "no". */
  function IsNode(ann: Annotation): (r: bool)
    ensures r <==> ann.ClassAnn? && ann.cls.nodeCheck == IsSubclass
  {
    match ann
    case ClassAnn(cls) =>
      (match cls.nodeCheck
       case IsSubclass => true
       case NotSubclass => false
       case RaisesTypeError => false)
    case _ => false
  }

  /** `hints.get(name, param.annotation)`: the resolved hint when there is
      one, the raw annotation otherwise. */
  function AnnotationOf(p: Param, hints: map<string, Annotation>): Annotation
  {
    if p.name in hints then hints[p.name] else p.annotation
  }

  predicate InjectsNode(p: Param, hints: map<string, Annotation>)
  {
    var ann := AnnotationOf(p, hints);
    ann != Empty && IsNode(ann)
  }

  /** An entry of `node_params`: a parameter name and its node class. */
  datatype NodeParam = NodeParam(name: string, node: PyClass)

  function Selected(p: Param, hints: map<string, Annotation>): seq<NodeParam>
  {
    if InjectsNode(p, hints) then [NodeParam(p.name, AnnotationOf(p, hints).cls)] else []
  }

  /** `node_params`, in signature order. */
  function NodeParams(ps: seq<Param>, hints: map<string, Annotation>): seq<NodeParam>
  {
    if ps == [] then [] else NodeParams(ps[..|ps| - 1], hints) + Selected(ps[|ps| - 1], hints)
  }

  function NodeNames(nps: seq<NodeParam>): set<string>
  {
    set np | np in nps :: np.name
  }

  function NodeClasses(nps: seq<NodeParam>): set<PyClass>
  {
    set np | np in nps :: np.node
  }

  predicate DistinctNodeNames(nps: seq<NodeParam>)
  {
    forall i, j :: 0 <= i < j < |nps| ==> nps[i].name != nps[j].name
  }

  /** Collecting node parameters over a concatenation of parameter lists
      collects each part in turn: the entries keep signature order. */
  lemma {:induction false} NodeParamsAppend(a: seq<Param>, b: seq<Param>, hints: map<string, Annotation>)
    ensures NodeParams(a + b, hints) == NodeParams(a, hints) + NodeParams(b, hints)
    decreases |b|
  {
    if b == [] {
      assert a + b == a;
    } else {
      var b' := b[..|b| - 1];
      assert (a + b)[..|a + b| - 1] == a + b';
      NodeParamsAppend(a, b', hints);
    }
  }

  /** An entry is in `node_params` exactly when some parameter of that name
      carries that node class as its annotation. */
  lemma {:induction false} NodeParamsExactly(ps: seq<Param>, hints: map<string, Annotation>, np: NodeParam)
    ensures np in NodeParams(ps, hints) <==>
      exists i :: 0 <= i < |ps| && ps[i].name == np.name && InjectsNode(ps[i], hints) && AnnotationOf(ps[i], hints).cls == np.node
    decreases |ps|
  {
    if ps != [] {
      var init := ps[..|ps| - 1];
      NodeParamsExactly(init, hints, np);
      assert forall i :: 0 <= i < |init| ==> init[i] == ps[i];
    }
  }

  /** Names that are distinct in the signature stay distinct in `node_params`. */
  lemma {:induction false} NodeParamsDistinct(ps: seq<Param>, hints: map<string, Annotation>)
    requires DistinctNames(ps)
    ensures DistinctNodeNames(NodeParams(ps, hints))
    decreases |ps|
  {
    if ps != [] {
      var init := ps[..|ps| - 1];
      NodeParamsDistinct(init, hints);
      var last := ps[|ps| - 1];
      if InjectsNode(last, hints) {
        forall np | np in NodeParams(init, hints) ensures np.name != last.name {
          NodeParamsExactly(init, hints, np);
        }
      }
    }
  }

  /** The first loop of `nodnod_route`. */
  method CollectNodeParams<V>(fn: Callable<V>) returns (nodeParams: seq<NodeParam>)
    ensures nodeParams == NodeParams(fn.params, fn.hints)
  {
    nodeParams := [];
    var i := 0;
    while i < |fn.params|
      invariant 0 <= i <= |fn.params|
      invariant nodeParams == NodeParams(fn.params[..i], fn.hints)
    {
      var param := fn.params[i];
      var ann := AnnotationOf(param, fn.hints);
      if ann != Empty && IsNode(ann) {
        nodeParams := nodeParams + [NodeParam(param.name, ann.cls)];
      }
      assert fn.params[..i + 1][..i] == fn.params[..i];
      i := i + 1;
    }
    assert fn.params[..i] == fn.params;
  }

  // ---------------------------------------------------------------------
  // The signature the framework sees

  /** The parameter appended to every rewritten signature. */
  const RequestParam: Param := Param(RequestName, KeywordOnly, ClassAnn(RequestClass), false)

  predicate Kept(p: Param, nodeNames: set<string>)
  {
    p.name !in nodeNames && p.name != RequestName
  }

  /** `new_params` before the request parameter is appended. */
  function KeptParams(ps: seq<Param>, nodeNames: set<string>): seq<Param>
  {
    if ps == [] then []
    else KeptParams(ps[..|ps| - 1], nodeNames) + (if Kept(ps[|ps| - 1], nodeNames) then [ps[|ps| - 1]] else [])
  }

  /** `sig.replace(parameters=new_params)`, which validates the new list. */
  function Rewritten(ps: seq<Param>, nodeNames: set<string>): Outcome<seq<Param>>
  {
    Validate(KeptParams(ps, nodeNames) + [RequestParam])
  }

  lemma {:induction false} KeptParamsAppend(a: seq<Param>, b: seq<Param>, nodeNames: set<string>)
    ensures KeptParams(a + b, nodeNames) == KeptParams(a, nodeNames) + KeptParams(b, nodeNames)
    decreases |b|
  {
    if b == [] {
      assert a + b == a;
    } else {
      var b' := b[..|b| - 1];
      assert (a + b)[..|a + b| - 1] == a + b';
      KeptParamsAppend(a, b', nodeNames);
    }
  }

  lemma {:induction false} KeptParamsMembers(ps: seq<Param>, nodeNames: set<string>, p: Param)
    ensures p in KeptParams(ps, nodeNames) <==> p in ps && Kept(p, nodeNames)
    decreases |ps|
  {
    if ps != [] {
      var init := ps[..|ps| - 1];
      KeptParamsMembers(init, nodeNames, p);
      assert ps == init + [ps[|ps| - 1]];
    }
  }

  /** A signature that is valid followed by one more parameter. */
  lemma ValidSnoc(s: seq<Param>, y: Param)
    requires ValidSignature(s)
    requires forall x :: x in s ==> Rank(x.kind) <= Rank(y.kind) && x.name != y.name
    requires forall x :: x in s && Rank(x.kind) <= 1 && x.hasDefault && Rank(y.kind) <= 1 ==> y.hasDefault
    ensures ValidSignature(s + [y])
  {
    var t := s + [y];
    forall i, j | 0 <= i < j < |t| ensures Rank(t[i].kind) <= Rank(t[j].kind) && t[i].name != t[j].name {
      if j == |s| { assert t[i] in s; }
    }
    forall i, j | 0 <= i < j < |t| && Rank(t[i].kind) <= 1 && t[i].hasDefault && Rank(t[j].kind) <= 1
      ensures t[j].hasDefault
    {
      if j == |s| { assert t[i] in s; }
    }
  }

  /** Dropping parameters from a valid signature leaves a valid one. */
  lemma {:induction false} KeptParamsValid(ps: seq<Param>, nodeNames: set<string>)
    requires ValidSignature(ps)
    ensures ValidSignature(KeptParams(ps, nodeNames))
    decreases |ps|
  {
    if ps != [] {
      var init, last := ps[..|ps| - 1], ps[|ps| - 1];
      assert ValidSignature(init) by {
        assert forall i :: 0 <= i < |init| ==> init[i] == ps[i];
      }
      KeptParamsValid(init, nodeNames);
      if Kept(last, nodeNames) {
        var kept := KeptParams(init, nodeNames);
        forall x | x in kept
          ensures Rank(x.kind) <= Rank(last.kind) && x.name != last.name
          ensures Rank(x.kind) <= 1 && x.hasDefault && Rank(last.kind) <= 1 ==> last.hasDefault
        {
          KeptParamsMembers(init, nodeNames, x);
          var i :| 0 <= i < |init| && init[i] == x;
          assert ps[i] == x;
        }
        ValidSnoc(kept, last);
      }
    }
  }

  /** The parameters left in `new_params` are parameters of the original. */
  lemma KeptParamsFrom(ps: seq<Param>, nodeNames: set<string>)
    ensures forall x :: x in KeptParams(ps, nodeNames) ==> x in ps && Kept(x, nodeNames)
  {
    forall x | x in KeptParams(ps, nodeNames) ensures x in ps && Kept(x, nodeNames) {
      KeptParamsMembers(ps, nodeNames, x);
    }
  }

  /** Without a surviving `**kwargs`, the rebuilt signature is the kept
      parameters followed by `request`, and it is valid. */
  lemma RewrittenAccepts(ps: seq<Param>, nodeNames: set<string>)
    requires ValidSignature(ps)
    requires forall p :: p in ps && Kept(p, nodeNames) ==> p.kind != VarKeyword
    ensures Rewritten(ps, nodeNames) == Returned(KeptParams(ps, nodeNames) + [RequestParam])
    ensures ValidSignature(KeptParams(ps, nodeNames) + [RequestParam])
  {
    var kept := KeptParams(ps, nodeNames);
    KeptParamsValid(ps, nodeNames);
    KeptParamsFrom(ps, nodeNames);
    ValidSnoc(kept, RequestParam);
    ValidateCorrect(kept + [RequestParam]);
  }

  /** With a surviving `**kwargs`, `sig.replace` raises `ValueError`. */
  lemma RewrittenRejects(ps: seq<Param>, nodeNames: set<string>, p: Param)
    requires p in ps && Kept(p, nodeNames) && p.kind == VarKeyword
    ensures Rewritten(ps, nodeNames).Raised? && Rewritten(ps, nodeNames).error.ValueError?
  {
    var kept := KeptParams(ps, nodeNames);
    KeptParamsMembers(ps, nodeNames, p);
    var i :| 0 <= i < |kept| && kept[i] == p;
    var t := kept + [RequestParam];
    assert t[i] == p && t[|kept|] == RequestParam;
    assert !KindsOrdered(t);
    ValidateCorrect(t);
    CheckParamsOnlyValueErrors(t, 0, false, {});
  }

  /** Rewriting a valid signature fails exactly when a `**kwargs` parameter
      survives (the keyword-only `request` cannot follow it), and then with
      a `ValueError`; otherwise the new signature is the surviving
      parameters in their original order, then `request`, and is valid. */
  lemma RewrittenOutcome(ps: seq<Param>, nodeNames: set<string>)
    requires ValidSignature(ps)
    ensures Rewritten(ps, nodeNames).Returned? <==> forall p :: p in ps && Kept(p, nodeNames) ==> p.kind != VarKeyword
    ensures Rewritten(ps, nodeNames).Returned? ==>
      && Rewritten(ps, nodeNames).value == KeptParams(ps, nodeNames) + [RequestParam]
      && ValidSignature(Rewritten(ps, nodeNames).value)
    ensures Rewritten(ps, nodeNames).Raised? ==> Rewritten(ps, nodeNames).error.ValueError?
  {
    if forall p :: p in ps && Kept(p, nodeNames) ==> p.kind != VarKeyword {
      RewrittenAccepts(ps, nodeNames);
    } else {
      var p :| p in ps && Kept(p, nodeNames) && p.kind == VarKeyword;
      RewrittenRejects(ps, nodeNames, p);
    }
  }

  lemma {:induction false} CheckParamsOnlyValueErrors(ps: seq<Param>, topRank: nat, seenDefault: bool, seen: set<string>)
    ensures CheckParams(ps, topRank, seenDefault, seen).Raised? ==> CheckParams(ps, topRank, seenDefault, seen).error.ValueError?
    decreases |ps|
  {
    if ps != [] {
      var p := ps[0];
      CheckParamsOnlyValueErrors(ps[1..], Rank(p.kind), seenDefault || (Rank(p.kind) <= 1 && p.hasDefault), seen + {p.name});
    }
  }

  /** The parameters of a rewritten signature: the kept ones of the
      original, and `request` once, last. */
  lemma RewrittenParams(ps: seq<Param>, nodeNames: set<string>, q: Param)
    requires ValidSignature(ps) && Rewritten(ps, nodeNames).Returned?
    ensures var sig := Rewritten(ps, nodeNames).value;
      && sig[|sig| - 1] == RequestParam
      && (q in sig <==> (q in ps && Kept(q, nodeNames)) || q == RequestParam)
      && (forall i :: 0 <= i < |sig| - 1 ==> sig[i].name != RequestName && sig[i].name !in nodeNames)
  {
    RewrittenOutcome(ps, nodeNames);
    var kept := KeptParams(ps, nodeNames);
    KeptParamsMembers(ps, nodeNames, q);
    forall i | 0 <= i < |kept| ensures kept[i].name != RequestName && kept[i].name !in nodeNames {
      KeptParamsMembers(ps, nodeNames, kept[i]);
    }
  }

  /** The second loop of `nodnod_route` and the rebuilt signature. */
  method RewriteSignature(params: seq<Param>, nodeParams: seq<NodeParam>) returns (r: Outcome<seq<Param>>)
    ensures r == Rewritten(params, NodeNames(nodeParams))
  {
    var nodeNames := NodeNames(nodeParams);
    var newParams := [];
    var i := 0;
    while i < |params|
      invariant 0 <= i <= |params|
      invariant newParams == KeptParams(params[..i], nodeNames)
    {
      var param := params[i];
      if param.name !in nodeNames && param.name != RequestName {
        newParams := newParams + [param];
      }
      assert params[..i + 1][..i] == params[..i];
      i := i + 1;
    }
    assert params[..i] == params;
    newParams := newParams + [RequestParam];
    r := Validate(newParams);
  }

  // ---------------------------------------------------------------------
  // Decoration

  /** What one run of the agent does to a scope whose lookups see `view`:
      the values it resolved and the cleanups it acquired, or the error a
      composition raised together with the cleanups acquired before it. */
  datatype AgentRun<!V> =
    | Filled(resolved: map<TypeKey, V>, acquired: seq<Cleanup>)
    | Failed(error: Error, acquired: seq<Cleanup>)

  /** A built agent, run against the view of the scope it is given. */
  type AgentFn<!V> = map<TypeKey, V> -> AgentRun<V>

  /** What the decorator keeps for a wrapped handler. */
  datatype Route<!V> = Route(
    fn: Callable<V>,             // the original handler
    agent: AgentFn<V>,           // built once, at decoration
    builtOver: set<PyClass>,     // the node classes the agent was built over
    nodeParams: seq<NodeParam>,  // `node_params`
    signature: seq<Param>,       // the signature the framework sees
    shared: Scope?<V>)           // the shared scope, if one was given

  datatype Decorated<!V> = Unwrapped(fn: Callable<V>) | Wrapped(route: Route<V>)

  /** `nodnod_route(fn, scope=shared)`; `build` is `EventLoopAgent.build`,
      which may raise for a graph it rejects. A handler without a node
      parameter comes back as it is and nothing is built. */
  method Decorate<V>(fn: Callable<V>, shared: Scope?<V>, build: set<PyClass> -> Outcome<AgentFn<V>>)
    returns (r: Outcome<Decorated<V>>)
    ensures NodeParams(fn.params, fn.hints) == [] <==> r == Returned(Unwrapped(fn))
    ensures var nps := NodeParams(fn.params, fn.hints);
      nps != [] ==>
        match build(NodeClasses(nps))
        case Raised(e) => r == Raised(e)
        case Returned(agent) =>
          match Rewritten(fn.params, NodeNames(nps))
          case Raised(e) => r == Raised(e)
          case Returned(sig) => r == Returned(Wrapped(Route(fn, agent, NodeClasses(nps), nps, sig, shared)))
  {
    var nodeParams := CollectNodeParams(fn);
    if nodeParams == [] {
      return Returned(Unwrapped(fn));
    }
    var built := build(NodeClasses(nodeParams));
    if built.Raised? {
      return Raised(built.error);
    }
    var sig := RewriteSignature(fn.params, nodeParams);
    if sig.Raised? {
      return Raised(sig.error);
    }
    r := Returned(Wrapped(Route(fn, built.value, NodeClasses(nodeParams), nodeParams, sig.value, shared)));
  }

  /** A wrapped route keeps exactly the node parameters of its handler,
      built its agent over their classes, and shows the framework the
      rewritten signature. */
  lemma DecoratedRoute<V>(fn: Callable<V>, shared: Scope?<V>, route: Route<V>, agent: AgentFn<V>)
    requires ValidSignature(fn.params)
    requires NodeParams(fn.params, fn.hints) != []
    requires Rewritten(fn.params, NodeNames(NodeParams(fn.params, fn.hints))).Returned?
    requires route == Route(fn, agent, NodeClasses(NodeParams(fn.params, fn.hints)), NodeParams(fn.params, fn.hints),
      Rewritten(fn.params, NodeNames(NodeParams(fn.params, fn.hints))).value, shared)
    ensures DistinctNodeNames(route.nodeParams)
    ensures forall p :: p in fn.params ==> (p.name in NodeNames(route.nodeParams) <==> InjectsNode(p, fn.hints))
    ensures route.signature[|route.signature| - 1] == RequestParam
    ensures forall p :: p in route.signature[..|route.signature| - 1] <==>
      p in fn.params && !InjectsNode(p, fn.hints) && p.name != RequestName
  {
    var nps := route.nodeParams;
    NodeParamsDistinct(fn.params, fn.hints);
    forall p | p in fn.params ensures p.name in NodeNames(nps) <==> InjectsNode(p, fn.hints) {
      var i :| 0 <= i < |fn.params| && fn.params[i] == p;
      if InjectsNode(p, fn.hints) {
        NodeParamsExactly(fn.params, fn.hints, NodeParam(p.name, AnnotationOf(p, fn.hints).cls));
      }
      if p.name in NodeNames(nps) {
        var np :| np in nps && np.name == p.name;
        NodeParamsExactly(fn.params, fn.hints, np);
        var j :| 0 <= j < |fn.params| && fn.params[j].name == np.name && InjectsNode(fn.params[j], fn.hints);
        assert i == j;
      }
    }
    RewrittenOutcome(fn.params, NodeNames(nps));
    var sig := route.signature;
    assert sig[..|sig| - 1] == KeptParams(fn.params, NodeNames(nps));
    forall p ensures p in sig[..|sig| - 1] <==> p in fn.params && !InjectsNode(p, fn.hints) && p.name != RequestName {
      KeptParamsMembers(fn.params, NodeNames(nps), p);
    }
  }

  // ---------------------------------------------------------------------
  // Per-request resolution

  /** The output type a node parameter is looked up under:
      `getattr(node_type, "__type__", node_type)`. */
  function OutKey(c: PyClass): TypeKey
  {
    match c.typeAttr
    case Some(t) => t
    case None => c.key
  }

  /** One turn of the merge loop: bind the parameter if its output type was
      found, otherwise leave the arguments as they are. */
  function Bind<V>(args: map<string, V>, np: NodeParam, view: map<TypeKey, V>): map<string, V>
  {
    if OutKey(np.node) in view then args[np.name := view[OutKey(np.node)]] else args
  }

  /** `resolved`: the framework's keyword arguments with every node
      parameter found in the scope bound over them, in `node_params` order. */
  function Merged<V>(args: map<string, V>, nps: seq<NodeParam>, view: map<TypeKey, V>): map<string, V>
    decreases |nps|
  {
    if nps == [] then args else Merged(Bind(args, nps[0], view), nps[1..], view)
  }

  function FoundNames<V>(nps: seq<NodeParam>, view: map<TypeKey, V>): set<string>
  {
    set np | np in nps && OutKey(np.node) in view :: np.name
  }

  lemma FoundNamesCons<V>(nps: seq<NodeParam>, view: map<TypeKey, V>)
    requires nps != []
    ensures FoundNames(nps, view) == (if OutKey(nps[0].node) in view then {nps[0].name} else {}) + FoundNames(nps[1..], view)
  {
    assert nps == [nps[0]] + nps[1..];
  }

  /** The handler receives the framework's arguments and the names of the
      node parameters whose output type the scope holds, and nothing else. */
  lemma {:induction false} MergedKeys<V>(args: map<string, V>, nps: seq<NodeParam>, view: map<TypeKey, V>)
    ensures Merged(args, nps, view).Keys == args.Keys + FoundNames(nps, view)
    decreases |nps|
  {
    if nps != [] {
      MergedKeys(Bind(args, nps[0], view), nps[1..], view);
      FoundNamesCons(nps, view);
    }
  }

  /** A framework argument whose name no found node parameter takes is
      passed through unchanged. */
  lemma {:induction false} MergedPassesThrough<V>(args: map<string, V>, nps: seq<NodeParam>, view: map<TypeKey, V>, n: string)
    requires n in args && n !in FoundNames(nps, view)
    ensures n in Merged(args, nps, view) && Merged(args, nps, view)[n] == args[n]
    decreases |nps|
  {
    if nps != [] {
      FoundNamesCons(nps, view);
      MergedPassesThrough(Bind(args, nps[0], view), nps[1..], view, n);
    }
  }

  /** A node parameter whose output type the scope holds receives that
      value, over any framework argument of the same name. */
  lemma {:induction false} MergedBindsFound<V>(args: map<string, V>, nps: seq<NodeParam>, view: map<TypeKey, V>, i: nat)
    requires DistinctNodeNames(nps)
    requires i < |nps| && OutKey(nps[i].node) in view
    ensures nps[i].name in Merged(args, nps, view)
    ensures Merged(args, nps, view)[nps[i].name] == view[OutKey(nps[i].node)]
    decreases |nps|
  {
    var rest := nps[1..];
    assert DistinctNodeNames(rest) by {
      forall j, k | 0 <= j < k < |rest| ensures rest[j].name != rest[k].name {
        assert rest[j] == nps[j + 1] && rest[k] == nps[k + 1];
      }
    }
    var bound := Bind(args, nps[0], view);
    if i > 0 {
      assert rest[i - 1] == nps[i];
      MergedBindsFound(bound, rest, view, i - 1);
    } else {
      assert nps[0].name !in FoundNames(rest, view) by {
        forall k | 0 <= k < |rest| ensures rest[k].name != nps[0].name {
          assert rest[k] == nps[k + 1];
        }
      }
      MergedPassesThrough(bound, rest, view, nps[0].name);
    }
  }

  /** The merge loop of `_resolve`: copy the framework's arguments and bind
      each node parameter that `scope.retrieve` finds. */
  method MergeResolved<V>(kwargs: map<string, V>, nodeParams: seq<NodeParam>, scope: Scope<V>) returns (resolved: map<string, V>)
    requires scope.Valid()
    ensures resolved == Merged(kwargs, nodeParams, scope.View())
  {
    resolved := kwargs;
    var i := 0;
    while i < |nodeParams|
      invariant 0 <= i <= |nodeParams|
      invariant Merged(resolved, nodeParams[i..], scope.View()) == Merged(kwargs, nodeParams, scope.View())
    {
      var np := nodeParams[i];
      var found := scope.Retrieve(OutKey(np.node));
      if found.Some? {
        resolved := resolved[np.name := found.value];
      }
      assert nodeParams[i..][1..] == nodeParams[i + 1..];
      i := i + 1;
    }
  }

  /** What one request observably does, in order. */
  datatype Event<!V> =
    | EnteredScope(chained: bool)     // a fresh scope, a child of the shared one if `chained`
    | PushedRequest(request: V)       // the request stored under `Request`
    | RanAgent                        // the agent run once against that scope
    | CalledHandler(args: map<string, V>)
    | RanCleanup(cleanup: Cleanup)    // on leaving the scope

  function CleanupEvents<V>(cs: seq<Cleanup>): (r: seq<Event<V>>)
    ensures |r| == |cs| && forall i :: 0 <= i < |cs| ==> r[i] == RanCleanup(cs[i])
  {
    if cs == [] then [] else [RanCleanup(cs[0])] + CleanupEvents(cs[1..])
  }

  /** What the agent sees: the shared scope's values, if any, with the
      request pushed on top. */
  function SeededView<V>(parentView: map<TypeKey, V>, request: V): map<TypeKey, V>
  {
    parentView[RequestKey := request]
  }

  /** The events every request starts with. */
  function Prologue<V>(route: Route<V>, request: V): seq<Event<V>>
  {
    [EnteredScope(route.shared != null), PushedRequest(request), RanAgent]
  }

  /** What follows the agent's run inside the scope: on failure the error,
      on success the handler's outcome on the merged arguments; then the
      cleanups, last acquired first. */
  function Respond<V>(route: Route<V>, view: map<TypeKey, V>, kwargs: map<string, V>, run: AgentRun<V>): (Outcome<V>, seq<Event<V>>)
  {
    match run
    case Failed(e, acquired) => (Raised(e), CleanupEvents(Reverse(acquired)))
    case Filled(resolved, acquired) =>
      var args := Merged(kwargs, route.nodeParams, view + resolved);
      (Call(route.fn, args), [CalledHandler(args)] + CleanupEvents(Reverse(acquired)))
  }

  /** One call of the wrapper, as a function of the shared scope's view,
      the request and the framework's keyword arguments: its outcome and
      the events it produces. */
  function Served<V>(route: Route<V>, parentView: map<TypeKey, V>, request: V, kwargs: map<string, V>): (Outcome<V>, seq<Event<V>>)
  {
    var view := SeededView(parentView, request);
    var rest := Respond(route, view, kwargs, route.agent(view));
    (rest.0, Prologue(route, request) + rest.1)
  }

  function ParentView<V>(shared: Scope?<V>): map<TypeKey, V>
    reads if shared == null then {} else shared.Chain
    requires shared != null ==> shared.Valid()
  {
    if shared == null then map[] else shared.View()
  }

  /** The start of `_resolve`: a new scope, a child of the shared one when
      there is one, with the request pushed into it. */
  method OpenRequestScope<V>(shared: Scope?<V>, request: V) returns (scope: Scope<V>)
    requires shared != null ==> shared.Valid()
    ensures fresh(scope) && scope.Valid() && !scope.closed && scope.cleanups == []
    ensures shared != null ==> scope.Chain == {scope} + shared.Chain
    ensures shared == null ==> scope.Chain == {scope}
    ensures scope.View() == SeededView(ParentView(shared), request)
  {
    if shared != null {
      scope := new Scope.ChildOf(shared);
    } else {
      scope := new Scope.Standalone();
    }
    scope.Push(RequestKey, request);
  }

  /** Inside `async with scope`, after the request was pushed: run the
      agent, merge, call the handler when the agent succeeded, then exit the
      scope, whatever happened. */
  method RunInScope<V>(route: Route<V>, scope: Scope<V>, kwargs: map<string, V>) returns (out: Outcome<V>, tail: seq<Event<V>>)
    requires scope.Valid() && !scope.closed && scope.cleanups == []
    modifies scope`values, scope`cleanups, scope`closed
    ensures (out, tail) == Respond(route, old(scope.View()), kwargs, route.agent(old(scope.View())))
    ensures scope.closed && scope.cleanups == []
    ensures match route.agent(old(scope.View()))
      case Filled(resolved, _) => scope.values == old(scope.values) + resolved
      case Failed(_, _) => scope.values == old(scope.values)
  {
    var run := route.agent(scope.View());
    match run
    case Failed(e, acquired) =>
      scope.Absorb(map[], acquired);
      assert scope.cleanups == acquired;
      assert scope.values == old(scope.values);
      var ran := scope.Exit();
      out := Raised(e);
      tail := CleanupEvents(ran);
    case Filled(resolved, acquired) =>
      scope.Absorb(resolved, acquired);
      assert scope.cleanups == acquired;
      var args := MergeResolved(kwargs, route.nodeParams, scope);
      out := Call(route.fn, args);
      var ran := scope.Exit();
      tail := [CalledHandler(args)] + CleanupEvents(ran);
  }

  /** The wrapper and `_resolve`: one fresh scope per request, chained to
      the shared scope when there is one; the request pushed; the agent run
      once; the arguments merged; the handler called inside the scope's
      lifetime; the scope exited on every path. The shared scope is only
      read. */
  method Invoke<V>(route: Route<V>, request: V, kwargs: map<string, V>) returns (out: Outcome<V>, trace: seq<Event<V>>)
    requires route.shared != null ==> route.shared.Valid()
    requires RequestName !in kwargs  // `request` is the wrapper's own parameter
    ensures (out, trace) == Served(route, ParentView(route.shared), request, kwargs)
  {
    ghost var parentView := ParentView(route.shared);
    var scope := OpenRequestScope(route.shared, request);
    var tail;
    out, tail := RunInScope(route, scope, kwargs);
    trace := Prologue(route, request) + tail;
    assert ParentView(route.shared) == parentView;
  }

  // ---------------------------------------------------------------------
  // What every request does

  /** Every request enters one scope first, pushes the request second and
      runs the agent third, and does none of these again; the handler is
      called once, right after the agent, exactly when the agent succeeded,
      and a failing agent's error is the outcome; after that only cleanups
      run, each acquired cleanup exactly once and the last acquired first. */
  lemma ServedLifecycle<V>(route: Route<V>, parentView: map<TypeKey, V>, request: V, kwargs: map<string, V>)
    ensures var trace := Served(route, parentView, request, kwargs).1;
      var run := route.agent(SeededView(parentView, request));
      && |trace| == 3 + (if run.Filled? then 1 else 0) + |run.acquired|
      && trace[0] == EnteredScope(route.shared != null)
      && trace[1] == PushedRequest(request)
      && trace[2] == RanAgent
      && (run.Filled? <==> trace[3..] != [] && trace[3].CalledHandler?)
      && (run.Failed? ==> Served(route, parentView, request, kwargs).0 == Raised(run.error))
      && (forall i :: 3 <= i < |trace| && !trace[i].CalledHandler? ==> trace[i].RanCleanup?)
      && (forall i :: 4 <= i < |trace| ==> trace[i].RanCleanup?)
      && (forall k :: 0 <= k < |run.acquired| ==> trace[|trace| - 1 - k] == RanCleanup(run.acquired[k]))
  {
    var view := SeededView(parentView, request);
    var run := route.agent(view);
    var trace := Served(route, parentView, request, kwargs).1;
    var cleanups := CleanupEvents(Reverse(run.acquired));
    var head := if run.Filled? then Prologue(route, request) + [CalledHandler(Merged(kwargs, route.nodeParams, view + run.resolved))]
                else Prologue(route, request);
    assert trace == head + cleanups;
    forall k | 0 <= k < |run.acquired| ensures trace[|trace| - 1 - k] == RanCleanup(run.acquired[k]) {
      ReverseAt(run.acquired, |run.acquired| - 1 - k);
      assert trace[|trace| - 1 - k] == cleanups[|cleanups| - 1 - k];
    }
  }

  /** When the agent succeeds, the handler is called with: every framework
      argument whose name no found node parameter takes, unchanged; every
      node parameter whose output type the scope holds (the agent's values
      over the shared scope's and the request), bound to that value; and
      nothing else. */
  lemma ServedArguments<V>(route: Route<V>, parentView: map<TypeKey, V>, request: V, kwargs: map<string, V>)
    requires DistinctNodeNames(route.nodeParams)
    requires route.agent(SeededView(parentView, request)).Filled?
    ensures var view := SeededView(parentView, request) + route.agent(SeededView(parentView, request)).resolved;
      var trace := Served(route, parentView, request, kwargs).1;
      && trace[3].CalledHandler?
      && Served(route, parentView, request, kwargs).0 == Call(route.fn, trace[3].args)
      && trace[3].args.Keys == kwargs.Keys + FoundNames(route.nodeParams, view)
      && (forall i :: 0 <= i < |route.nodeParams| && OutKey(route.nodeParams[i].node) in view ==>
            trace[3].args[route.nodeParams[i].name] == view[OutKey(route.nodeParams[i].node)])
      && (forall n :: n in kwargs && n !in FoundNames(route.nodeParams, view) ==> trace[3].args[n] == kwargs[n])
  {
    var view := SeededView(parentView, request) + route.agent(SeededView(parentView, request)).resolved;
    ServedLifecycle(route, parentView, request, kwargs);
    MergedKeys(kwargs, route.nodeParams, view);
    forall i | 0 <= i < |route.nodeParams| && OutKey(route.nodeParams[i].node) in view
      ensures Merged(kwargs, route.nodeParams, view)[route.nodeParams[i].name] == view[OutKey(route.nodeParams[i].node)]
    {
      MergedBindsFound(kwargs, route.nodeParams, view, i);
    }
    forall n | n in kwargs && n !in FoundNames(route.nodeParams, view)
      ensures Merged(kwargs, route.nodeParams, view)[n] == kwargs[n]
    {
      MergedPassesThrough(kwargs, route.nodeParams, view, n);
    }
  }

  /** A handler parameter that needs an argument, has no default, is not
      among the framework's arguments and is not a node parameter the scope
      resolved is left unbound, so the call raises `TypeError`. */
  lemma UnboundParamRaises<V>(route: Route<V>, parentView: map<TypeKey, V>, request: V, kwargs: map<string, V>, p: Param)
    requires route.agent(SeededView(parentView, request)).Filled?
    requires p in route.fn.params && Named(p.kind) && !p.hasDefault
    requires p.name !in kwargs
    requires p.name !in FoundNames(route.nodeParams, SeededView(parentView, request) + route.agent(SeededView(parentView, request)).resolved)
    ensures Served(route, parentView, request, kwargs).0.Raised?
    ensures Served(route, parentView, request, kwargs).0.error.TypeError?
  {
    var view := SeededView(parentView, request) + route.agent(SeededView(parentView, request)).resolved;
    var args := Merged(kwargs, route.nodeParams, view);
    MergedKeys(kwargs, route.nodeParams, view);
    assert p.name !in args;
    var i :| 0 <= i < |route.fn.params| && route.fn.params[i] == p;
    assert !Binds(route.fn.params, args.Keys);
  }

  /** A framework-native parameter named `request` is dropped from the
      signature the framework sees and never forwarded: unless a node
      parameter of that name is resolved, a handler that requires it raises
      `TypeError` on every request whose agent succeeds. */
  lemma NativeRequestParamNotForwarded<V>(route: Route<V>, parentView: map<TypeKey, V>, request: V, kwargs: map<string, V>, p: Param)
    requires RequestName !in kwargs
    requires RequestName !in NodeNames(route.nodeParams)
    requires route.agent(SeededView(parentView, request)).Filled?
    requires p in route.fn.params && p.name == RequestName && Named(p.kind) && !p.hasDefault
    ensures Served(route, parentView, request, kwargs).0.Raised?
    ensures Served(route, parentView, request, kwargs).0.error.TypeError?
  {
    var view := SeededView(parentView, request) + route.agent(SeededView(parentView, request)).resolved;
    assert RequestName !in FoundNames(route.nodeParams, view);
    UnboundParamRaises(route, parentView, request, kwargs, p);
  }

  /** A value the shared scope holds under a node's output type, and that
      the request and the agent do not shadow, is what that node parameter
      receives. */
  lemma SharedValueReachesHandler<V>(route: Route<V>, parentView: map<TypeKey, V>, request: V, kwargs: map<string, V>, i: nat)
    requires DistinctNodeNames(route.nodeParams)
    requires route.agent(SeededView(parentView, request)).Filled?
    requires i < |route.nodeParams|
    requires OutKey(route.nodeParams[i].node) in parentView
    requires OutKey(route.nodeParams[i].node) != RequestKey
    requires OutKey(route.nodeParams[i].node) !in route.agent(SeededView(parentView, request)).resolved
    ensures Served(route, parentView, request, kwargs).1[3] ==
      CalledHandler(Merged(kwargs, route.nodeParams, SeededView(parentView, request) + route.agent(SeededView(parentView, request)).resolved))
    ensures route.nodeParams[i].name in Served(route, parentView, request, kwargs).1[3].args
    ensures Served(route, parentView, request, kwargs).1[3].args[route.nodeParams[i].name] == parentView[OutKey(route.nodeParams[i].node)]
  {
    ServedArguments(route, parentView, request, kwargs);
  }

  // ---------------------------------------------------------------------
  // The shared scope

  /** `NodnodScope`: a standalone scope the application fills before
      requests begin and passes to `nodnod_route(scope=...)`. */
  class NodnodScope<V> {
    const scope: Scope<V>

    ghost predicate Valid()
      reads scope, scope.Chain
    {
      scope.Valid() && scope.parent == null && !scope.closed
    }

    /** `NodnodScope(detail=...)`, which is also `create_scope`. */
    constructor ()
      ensures Valid() && fresh(scope)
      ensures forall key :: Get(key) == None
    {
      scope := new Scope.Standalone();
    }

    /** `get(type_)`: the value stored for `key`, `None` on a miss. */
    function Get(key: TypeKey): (r: Option<V>)
      reads scope, scope.Chain
      requires Valid()
      ensures r.Some? <==> key in scope.values
      ensures r.Some? ==> r.value == scope.values[key]
    {
      match scope.Retrieve(key)
      case Some(v) => Some(v)
      case None => None
    }

    /** `set(type_, value)`: later `Get(key)` yields `value`; every other
        key reads as before. */
    method Set(key: TypeKey, value: V)
      requires Valid()
      modifies scope`values
      ensures Valid()
      ensures Get(key) == Some(value)
      ensures forall k :: k != key ==> Get(k) == old(Get(k))
    {
      scope.Push(key, value);
    }
  }

  /** `create_scope()`. */
  method CreateScope<V>() returns (s: NodnodScope<V>)
    ensures fresh(s) && fresh(s.scope) && s.Valid()
    ensures forall key :: s.Get(key) == None
  {
    s := new NodnodScope();
  }

  /** Two shared scopes are independent: setting the same key in each keeps
      both values apart. */
  method SeparateScopes<V>(key: TypeKey, a: V, b: V) returns (fromFirst: Option<V>, fromSecond: Option<V>)
    ensures fromFirst == Some(a) && fromSecond == Some(b)
  {
    var first := CreateScope();
    first.Set(key, a);
    var second := CreateScope();
    second.Set(key, b);
    fromFirst := first.Get(key);
    fromSecond := second.Get(key);
  }
}
