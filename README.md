# fastapi-nodnod, modelled in Dafny

`fastapi_nodnod` connects the `nodnod` dependency-injection library to FastAPI
route handlers. The decorator `nodnod_route` finds the handler parameters
whose annotation is a `nodnod` node class. It builds one agent over those node
classes. It then gives the framework a rewritten signature: the handler's other
parameters, followed by a keyword-only `request`. On every request the wrapper
does the following:

- opens a fresh scope, which is a child of an optional shared scope;
- pushes the request into that scope;
- runs the agent;
- looks up each node parameter's output type in the scope, and binds every
  value it finds, under the parameter's name, over the framework's keyword
  arguments;
- calls the handler inside the scope's lifetime, then exits the scope, which
  runs the pending cleanups.

`NodnodScope` and `create_scope` wrap the shared scope. Two example
applications use the adapter: a user/admin check and a multi-tenant project
list.

The project has five modules:

- `python.dfy` (`Py`): the part of Python the adapter relies on.
  - Options, raised errors (an HTTP status, `TypeError`, `ValueError`) and
    call outcomes.
  - Classes used as annotations, and parameters.
  - The rules `inspect.Signature` checks when a parameter list is replaced.
    These are given twice: as a single-pass validation and as a declarative
    predicate, proved equal.
  - The keyword call `func(**kwargs)`.
- `scopes.dfy` (`Scopes`): `nodnod`'s `Scope` as a class. It holds local
  values, an optional parent consulted on a miss, pending cleanups and a
  closed flag.
- `core.dfy` (`Core`): `_is_node`, the two loops of `nodnod_route` and the
  decorator itself, the wrapper with `_resolve`, `NodnodScope` and
  `create_scope`.
  - Each loop is a method proved against a specification function.
  - One call of the wrapper is specified by the function `Served`. It gives
    the call's outcome and its ordered trace of observable events: entering
    the scope, pushing the request, running the agent, calling the handler,
    running each cleanup.
- `simple_example.dfy` (`SimpleExample`): `CurrentUser`, `RequireAdmin` and
  the `/me` and `/admin` handlers. Both handlers are decorated and served
  through `Core`.
- `tenant_isolation.dfy` (`TenantIsolation`): the shared project list as a
  class, `TenantDB`, `CurrentTenant`, `DB`, and both `/projects` handlers.

The agent (`EventLoopAgent`) belongs to `nodnod`, which is not part of this
model.

- It is a function value from what the scope shows to an `AgentRun`. The run
  either fills the scope with the values it resolved or fails with an error.
  In both cases it reports the cleanups it acquired, in order.
- `EventLoopAgent.build` is a parameter of `Decorate`, and may raise.
- The `/me` and `/admin` examples each give a concrete agent for their nodes.

The code was followed wherever it is more specific than its documentation.
Two consequences are kept deliberately:

- `Optional[Node]` is not detected as a node.
- A handler parameter named `request` that is not a node parameter is removed
  from the signature and never forwarded to the handler.

## Model

| member | source | states |
|---|---|---|
| Py.CheckParamsCorrect | fastapi_nodnod/core.py:110 | The single-pass validation that `sig.replace` performs accepts a list exactly when it is acceptable: kinds are ordered, no positional parameter without a default follows one with a default, and names are distinct. An accepted list is returned unchanged. |
| Py.ValidateCorrect | fastapi_nodnod/core.py:110 | Replacing the parameters succeeds exactly for a valid parameter list, and the result is that list. |
| Scopes.Scope.Standalone | fastapi_nodnod/core.py:42 | A standalone scope is valid, has no parent, has no values, has no cleanups and is open. |
| Scopes.Scope.ChildOf | fastapi_nodnod/core.py:40 | A child scope starts empty and open. Its lookups see exactly what its parent sees. |
| Scopes.Scope.Retrieve | fastapi_nodnod/core.py:51 | A lookup finds a key exactly when the scope or an ancestor holds it. It returns the value closest to the scope, and a local value wins. |
| Scopes.Scope.Push | fastapi_nodnod/core.py:45 | Pushing overwrites one key in this scope only. The view changes at that key and nowhere else. |
| Scopes.Scope.Absorb | fastapi_nodnod/core.py:46 | After the agent's run, the scope holds the resolved values over its own, and the acquired cleanups are appended in order. |
| Scopes.Scope.Exit | fastapi_nodnod/core.py:44-60 | Leaving `async with scope` runs every pending cleanup exactly once, last acquired first, and then closes the scope. |
| Core.IsNode | fastapi_nodnod/core.py:17-21 | True exactly for a class annotation whose `issubclass(_, Node)` holds. A generic alias such as `Optional[X]`, a string, no annotation, and a check that raises `TypeError` all give false. |
| Core.NodeParamsExactly | fastapi_nodnod/core.py:92-96 | An entry is in `node_params` exactly when a parameter of that name has a non-empty annotation that is a node class. The annotation is the resolved hint, or else the raw annotation. |
| Core.NodeParamsDistinct | fastapi_nodnod/core.py:92-96 | `node_params` has one entry per name, as a dict keyed by parameter name has. |
| Core.CollectNodeParams | fastapi_nodnod/core.py:92-96 | The collecting loop yields the specification's `node_params`, in signature order. |
| Core.KeptParamsMembers | fastapi_nodnod/core.py:103-106 | A parameter survives the rewrite exactly when it is a parameter of the handler, is not a node parameter, and is not named `request`. |
| Core.KeptParamsValid | fastapi_nodnod/core.py:103-106 | Dropping parameters from a valid signature leaves a valid signature. |
| Core.RewrittenAccepts | fastapi_nodnod/core.py:103-110 | With no surviving `**kwargs`, the new signature is the surviving parameters in their original order followed by the keyword-only `request: Request`, and it is valid. |
| Core.RewrittenRejects | fastapi_nodnod/core.py:107-110 | With a surviving `**kwargs`, appending keyword-only `request` breaks the kind order, and `sig.replace` raises `ValueError`. |
| Core.RewrittenOutcome | fastapi_nodnod/core.py:103-110 | The rewrite succeeds if and only if no `**kwargs` survives. On success the signature is the surviving parameters then `request`, and it is valid. On failure the error is a `ValueError`. |
| Core.RewrittenParams | fastapi_nodnod/core.py:103-110 | A rewritten signature ends with `request`. It holds exactly the surviving parameters plus `request`. No earlier entry is named `request` or after a node parameter. |
| Core.RewriteSignature | fastapi_nodnod/core.py:102-110 | The second loop of the decorator, together with `sig.replace`, yields the specification's rewritten signature or its error. |
| Core.Decorate | fastapi_nodnod/core.py:88-121 | A handler with no node parameter comes back unchanged, and no agent is built. Otherwise the agent is built once over the node classes, and an error from building it or from the rewrite propagates. On success the result is a route holding the handler, the agent, `node_params`, the new signature and the shared scope. |
| Core.DecoratedRoute | fastapi_nodnod/core.py:92-110 | A decorated route has distinct node parameter names. A handler parameter is a node parameter exactly when it injects a node. The framework sees exactly the non-node parameters not named `request`, followed by `request`. |
| Core.MergedKeys | fastapi_nodnod/core.py:48-55 | The merged arguments are the framework's arguments plus the names of the node parameters whose output type the scope holds, and nothing else. |
| Core.MergedPassesThrough | fastapi_nodnod/core.py:48-55 | A framework argument that no found node parameter takes is passed on unchanged. |
| Core.MergedBindsFound | fastapi_nodnod/core.py:49-53 | A node parameter whose output type is found receives the scope's value under that type, overriding a framework argument of the same name. The output type is `__type__` if the class has one, else the class itself. |
| Core.MergeResolved | fastapi_nodnod/core.py:48-55 | The merge loop computes the specification's merged arguments from the scope's view. |
| Core.OpenRequestScope | fastapi_nodnod/core.py:39-45 | Each request gets a fresh, open scope with no cleanups. It is a child of the shared scope when one is given and standalone otherwise, and it shows the shared values with the request pushed on top. |
| Core.RunInScope | fastapi_nodnod/core.py:44-60 | Inside the scope, the agent runs once. A failing agent's error is the outcome. Otherwise the handler is called on the merged arguments. On both paths the scope is then exited: it is closed with no pending cleanups, and its cleanups ran. Afterwards the scope holds the agent's resolved values over its own, or its own values unchanged when the agent failed. |
| Core.Invoke | fastapi_nodnod/core.py:31-60 | The wrapper's outcome and event trace are those of `Served` on the shared scope's view. The method has no `modifies` clause: the adapter changes nothing but the fresh request scope, and it leaves the shared scope as it was. |
| Core.ServedLifecycle | fastapi_nodnod/core.py:39-60 | Every request first enters a scope, then pushes the request, then runs the agent, and none of these happen again. The handler is called once, right after the agent, exactly when the agent succeeded. A failing agent's error is the outcome. Everything afterwards is a cleanup; each acquired cleanup runs once, last acquired first. |
| Core.ServedArguments | fastapi_nodnod/core.py:48-57 | When the agent succeeds, the handler's arguments are the framework arguments plus the found node parameters. Each found node parameter gets the value its output type has in the scope. Every other framework argument is unchanged, and the outcome is the handler call on these arguments. |
| Core.UnboundParamRaises | fastapi_nodnod/core.py:48-57 | A required parameter that is neither a framework argument nor a found node parameter leaves the call unbound, and the call raises `TypeError`. |
| Core.NativeRequestParamNotForwarded | fastapi_nodnod/core.py:104-114 | A handler that requires a `request` parameter that is not a node gets `TypeError`, because the wrapper consumes `request` and never forwards it. |
| Core.SharedValueReachesHandler | fastapi_nodnod/core.py:39-53 | A value the shared scope holds under a node's output type is what that node parameter receives, unless the request or the agent shadows it. |
| Core.NodnodScope.constructor | fastapi_nodnod/core.py:127-128 | A new shared scope is a fresh standalone scope in which nothing is set. |
| Core.NodnodScope.Get | fastapi_nodnod/core.py:137-142 | `get` returns the value stored for the type, and `None` for a type never set. |
| Core.NodnodScope.Set | fastapi_nodnod/core.py:134-135 | After `set(T, v)`, `get(T)` is `v`, and every other type reads as before. |
| Core.CreateScope | fastapi_nodnod/core.py:145-147 | `create_scope` returns a fresh, empty shared scope. |
| Core.SeparateScopes | tests/test_integration.py:182-217 | Two shared scopes are independent: setting the same type in each keeps both values. |
| SimpleExample.CurrentUser | examples/simple.py:17-24 | Returns the `x-user` header exactly when it is present and non-empty. Otherwise it raises HTTP 401. |
| SimpleExample.RequireAdmin | examples/simple.py:27-32 | Succeeds exactly for `alice` and `admin`. Any other user raises HTTP 403. |
| SimpleExample.AdminNodeParamsFound | examples/simple.py:41-43 | Both parameters of `admin` are node parameters, in signature order. |
| SimpleExample.AdminSignature | examples/simple.py:41-43 | The framework sees only `request` for `admin`. |
| SimpleExample.DecorateAdmin | examples/simple.py:41-44 | Decorating `admin` yields the `/admin` route over both nodes. |
| SimpleExample.AdminResponses | examples/simple.py:17-44 | Serving `/admin` fails with 401 when the user is missing, before any admin check. It fails with 403 for a user outside the allow-list. Otherwise it returns `"welcome "` followed by the user. |
| SimpleExample.MeDecoration | examples/simple.py:35-37 | The one parameter of `me` is a node parameter, and the framework sees only `request`. |
| SimpleExample.DecorateMe | examples/simple.py:35-38 | Decorating `me` yields the `/me` route over `CurrentUser`. |
| SimpleExample.MeResponses | examples/simple.py:21-24 | Serving `/me` succeeds exactly when the `x-user` header is present and non-empty, and then returns that header. Otherwise it raises 401. |
| TenantIsolation.Visible | examples/tenant_isolation.py:48-49 | The comprehension keeps a project exactly when it belongs to the tenant. |
| TenantIsolation.VisibleAppend | examples/tenant_isolation.py:48-49 | Filtering a concatenation filters each part and keeps their order. |
| TenantIsolation.VisibleAll | examples/tenant_isolation.py:48-49 | A list holding only one tenant's projects is its own filtered view, so filtering keeps the list's order. |
| TenantIsolation.AppendIsolation | examples/tenant_isolation.py:48-54 | An appended project shows last to its own tenant, and every other tenant's view is unchanged. |
| TenantIsolation.Summaries | examples/tenant_isolation.py:87-88 | `list_projects` maps each project to its id and name, one for one, in order. |
| TenantIsolation.ProjectTable.constructor | examples/tenant_isolation.py:37-41 | `PROJECTS` starts as the three listed projects, and each id is its position, counted from one. |
| TenantIsolation.TenantDB.constructor | examples/tenant_isolation.py:45-46 | A tenant's database wraps that tenant over the shared list. |
| TenantIsolation.TenantDB.Projects | examples/tenant_isolation.py:48-49 | `projects()` holds exactly the shared list's entries whose tenant id is the database's tenant id. |
| TenantIsolation.TenantDB.CreateProject | examples/tenant_isolation.py:51-54 | Appends exactly one project, numbered one past the old length, owned by the tenant and carrying the given name. Earlier entries are unchanged. Ids remain positions. The creator's `projects()` gains the new project last, and no other tenant's view changes. |
| TenantIsolation.IdsDistinct | examples/tenant_isolation.py:52-53 | When ids are positions, no two projects share an id. |
| TenantIsolation.CurrentTenant | examples/tenant_isolation.py:60-68 | Returns the tenant named by `x-tenant`; a missing header reads as `""`. An unknown id raises HTTP 400. |
| TenantIsolation.DB | examples/tenant_isolation.py:71-75 | `DB` wraps exactly the resolved tenant over the shared list. |
| TenantIsolation.ListProjects | examples/tenant_isolation.py:85-88 | `GET /projects` lists one summary per visible project, in order. |
| TenantIsolation.ServeListProjects | examples/tenant_isolation.py:60-88 | An unknown tenant gets 400. Any other tenant gets exactly the summaries of its own projects. |
| TenantIsolation.ServeCreateProject | examples/tenant_isolation.py:60-95 | An unknown tenant gets 400 and the list is unchanged. Any other tenant gets the new project's id and name, and the list gains exactly that project. |
| TenantIsolation.ListingIsolated | examples/tenant_isolation.py:48-49 | Every summary a tenant is shown belongs to one of that tenant's own projects, found at the position its id names. |

## Left out

- Async: `await`, `inspect.iscoroutine` and the event loop. The handler is an ordinary function, and its outcome is the awaited result.
- `nodnod` internals: the agent's scheduling, cycle detection and generator mechanics. The agent is a function value passed to the route, and its run reports its resolved values and acquired cleanups.
- Errors raised by a cleanup, and how `nodnod` combines them with an error already in flight.
- Scopes.Scope.Exit: models every cleanup succeeding.
- `typing.get_type_hints` raising on an unresolved forward reference is not modelled. Hints are given as an already-resolved map.
- The scope `detail` strings, and `id(request)` inside them.
- `functools.wraps` and the `__signature__` attribute, apart from the signature value itself.
- The two call forms of `nodnod_route`, with and without parentheses. `Decorate` takes the optional shared scope directly.
- FastAPI, Starlette and pydantic: routing, query, path and body binding, `Depends`, and turning `HTTPException` into a response. The framework's keyword arguments are a parameter of `Invoke`.
- Core.NodnodScope.Get: Python's `get` cannot tell a stored `None` from a miss; the model keeps them apart.
- Header names in the examples: matched exactly, not case-insensitively as Starlette does.
- The `/search` handler of the simple example. It only exercises FastAPI's `Query` binding.
- `examples/feature_flags.py`. It relies on an MD5 hash and on floating-point arithmetic.
- `tests/test_integration.py`. It is end-to-end HTTP testing; it is cited only as evidence for `Core.SeparateScopes`.
- Core.Invoke: the agent and the handler body are pure functions. The model cannot show composition functions or handlers that change application state between requests, such as a node counting its calls or a handler appending to a list. The tenant example's append is modelled on its own, by `TenantIsolation.ServeCreateProject`.
- Response dicts in the examples, such as `{"user": user}` and `{"msg": ...}`, are reduced to their one field.
- `SimpleExample.AdminBody`, `SimpleExample.MeBody`: an argument that is not a string raises `TypeError` in the model. Python's f-string or dict would accept it.
