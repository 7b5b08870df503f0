/** The simple example application: a `CurrentUser` node read from the
    `x-user` header, a `RequireAdmin` node that depends on it, and the
    `/me` and `/admin` handlers, both decorated and served through the
    adapter model. Each handler's response dict is reduced to its one
    field. */
module SimpleExample {
  import opened Py
  import opened Core

  /** Request headers by (lower-case) name. */
  type Headers = map<string, string>

  /** The values a scope of this application holds. */
  datatype Value = Req(headers: Headers) | Text(text: string) | NoValue

  const UserHeader: string := "x-user"

  /** The allow-list `["alice", "admin"]`. */
  const Admins: seq<string> := ["alice", "admin"]

  /** `CurrentUser.__compose__`: the `x-user` header; 401 when it is
      missing or empty. */
  function CurrentUser(headers: Headers): (r: Outcome<string>)
    ensures r.Returned? <==> UserHeader in headers && headers[UserHeader] != ""
    ensures r.Returned? ==> r.value == headers[UserHeader]
    ensures r.Raised? ==> r.error == HttpError(401)
  {
    if UserHeader !in headers || headers[UserHeader] == "" then Raised(HttpError(401))
    else Returned(headers[UserHeader])
  }

  /** `RequireAdmin.__compose__`: 403 for every user outside the
      allow-list. */
  function RequireAdmin(user: string): (r: Outcome<()>)
    ensures r.Returned? <==> user == "alice" || user == "admin"
    ensures r.Raised? ==> r.error == HttpError(403)
  {
    if user !in Admins then Raised(HttpError(403)) else Returned(())
  }

  const CurrentUserNode: PyClass := PyClass("examples.simple.CurrentUser", IsSubclass, None)
  const RequireAdminNode: PyClass := PyClass("examples.simple.RequireAdmin", IsSubclass, None)

  /** The agent built over `{CurrentUser, RequireAdmin}`: `CurrentUser`
      from the request in scope, then `RequireAdmin` from that user. A
      raising node stops the run; neither node is a generator, so nothing
      is acquired. */
  function AdminAgent(view: map<TypeKey, Value>): AgentRun<Value>
  {
    if RequestKey !in view || !view[RequestKey].Req? then Failed(TypeError("no request in scope"), [])
    else
      match CurrentUser(view[RequestKey].headers)
      case Raised(e) => Failed(e, [])
      case Returned(user) =>
        match RequireAdmin(user)
        case Raised(e) => Failed(e, [])
        case Returned(_) => Filled(map[OutKey(CurrentUserNode) := Text(user), OutKey(RequireAdminNode) := NoValue], [])
  }

  /** The body of `admin(user, _)`. */
  function AdminBody(args: map<string, Value>): Outcome<Value>
  {
    if "user" in args && args["user"].Text? then Returned(Text("welcome " + args["user"].text))
    else Raised(TypeError("user is not a string"))
  }

  const AdminParams: seq<Param> := [
    Param("user", PositionalOrKeyword, ClassAnn(CurrentUserNode), false),
    Param("_", PositionalOrKeyword, ClassAnn(RequireAdminNode), false)]

  const AdminHandler: Callable<Value> :=
    Callable(AdminParams, map["user" := ClassAnn(CurrentUserNode), "_" := ClassAnn(RequireAdminNode)], AdminBody)

  const AdminNodeParams: seq<NodeParam> := [NodeParam("user", CurrentUserNode), NodeParam("_", RequireAdminNode)]

  /** The route `@nodnod_route` makes of `admin`: both parameters are
      nodes, so the framework sees only `request`. */
  const AdminRoute: Route<Value> :=
    Route(AdminHandler, AdminAgent, {CurrentUserNode, RequireAdminNode}, AdminNodeParams, [RequestParam], null)

  lemma NodeParamsSingle(p: Param, hints: map<string, Annotation>)
    ensures NodeParams([p], hints) == Selected(p, hints)
  {
    assert [p][..0] == [];
  }

  /** Each parameter of `admin` is annotated with its node class. */
  lemma AdminParamsSelected()
    ensures Selected(AdminParams[0], AdminHandler.hints) == [AdminNodeParams[0]]
    ensures Selected(AdminParams[1], AdminHandler.hints) == [AdminNodeParams[1]]
  {
    assert AnnotationOf(AdminParams[0], AdminHandler.hints) == ClassAnn(CurrentUserNode);
    assert AnnotationOf(AdminParams[1], AdminHandler.hints) == ClassAnn(RequireAdminNode);
  }

  /** Both parameters of `admin` are node-injected, in signature order. */
  lemma AdminNodeParamsFound()
    ensures NodeParams(AdminHandler.params, AdminHandler.hints) == AdminNodeParams
  {
    var hints := AdminHandler.hints;
    var user, admin := AdminParams[0], AdminParams[1];
    AdminParamsSelected();
    NodeParamsSingle(user, hints);
    NodeParamsSingle(admin, hints);
    NodeParamsAppend([user], [admin], hints);
    assert [user] + [admin] == AdminParams;
  }

  /** With both parameters injected, the framework sees only `request`. */
  lemma AdminSignature()
    ensures Rewritten(AdminHandler.params, NodeNames(AdminNodeParams)) == Returned([RequestParam])
  {
    var names := NodeNames(AdminNodeParams);
    assert AdminNodeParams[0] in AdminNodeParams && AdminNodeParams[1] in AdminNodeParams;
    assert "user" in names && "_" in names;
    var kept := KeptParams(AdminParams, names);
    if kept != [] {
      KeptParamsMembers(AdminParams, names, kept[0]);
    }
    assert kept == [];
    assert kept + [RequestParam] == [RequestParam];
    ValidateCorrect([RequestParam]);
    assert ValidSignature([RequestParam]);
  }

  /** `@nodnod_route` applied to `admin` yields `AdminRoute`. */
  method DecorateAdmin() returns (r: Outcome<Decorated<Value>>)
    ensures r == Returned(Wrapped(AdminRoute))
  {
    AdminNodeParamsFound();
    AdminSignature();
    assert AdminNodeParams[0] in AdminNodeParams && AdminNodeParams[1] in AdminNodeParams;
    assert NodeClasses(AdminNodeParams) == {CurrentUserNode, RequireAdminNode};
    r := Decorate(AdminHandler, null, (nodes: set<PyClass>) => Returned(AdminAgent));
  }

  /** `GET /admin`: 401 without a user (before any admin check), 403 for a
      user outside the allow-list, otherwise `"welcome "` and the user. */
  lemma AdminResponses(headers: Headers)
    ensures UserHeader !in headers || headers[UserHeader] == "" ==>
      Served(AdminRoute, map[], Req(headers), map[]).0 == Raised(HttpError(401))
    ensures UserHeader in headers && headers[UserHeader] != "" && headers[UserHeader] !in Admins ==>
      Served(AdminRoute, map[], Req(headers), map[]).0 == Raised(HttpError(403))
    ensures UserHeader in headers && headers[UserHeader] in Admins ==>
      Served(AdminRoute, map[], Req(headers), map[]).0 == Returned(Text("welcome " + headers[UserHeader]))
  {
    var view := SeededView(map[], Req(headers));
    assert view[RequestKey] == Req(headers);
    var run := AdminAgent(view);
    if run.Filled? {
      var user := headers[UserHeader];
      var args := Merged(map[], AdminNodeParams, view + run.resolved);
      var full := view + run.resolved;
      assert full[OutKey(CurrentUserNode)] == Text(user) && full[OutKey(RequireAdminNode)] == NoValue;
      var first := Bind(map[], AdminNodeParams[0], full);
      assert first == map["user" := Text(user)];
      assert AdminNodeParams[1..] == [AdminNodeParams[1]] && AdminNodeParams[1..][1..] == [];
      assert Merged(first, AdminNodeParams[1..], full) == Merged(Bind(first, AdminNodeParams[1], full), [], full);
      assert args == Bind(first, AdminNodeParams[1], full);
      assert args == map["user" := Text(user), "_" := NoValue];
      assert Binds(AdminParams, args.Keys) by {
        assert AdminParams[0].name == "user" && AdminParams[1].name == "_";
      }
    }
  }

  /** The agent built over `{CurrentUser}`: `CurrentUser` from the
      request in scope; nothing is acquired. */
  function MeAgent(view: map<TypeKey, Value>): AgentRun<Value>
  {
    if RequestKey !in view || !view[RequestKey].Req? then Failed(TypeError("no request in scope"), [])
    else
      match CurrentUser(view[RequestKey].headers)
      case Raised(e) => Failed(e, [])
      case Returned(user) => Filled(map[OutKey(CurrentUserNode) := Text(user)], [])
  }

  /** The body of `me(user)`. */
  function MeBody(args: map<string, Value>): Outcome<Value>
  {
    if "user" in args && args["user"].Text? then Returned(Text(args["user"].text))
    else Raised(TypeError("user is not a string"))
  }

  const MeParam: Param := Param("user", PositionalOrKeyword, ClassAnn(CurrentUserNode), false)

  const MeHandler: Callable<Value> := Callable([MeParam], map["user" := ClassAnn(CurrentUserNode)], MeBody)

  const MeNodeParams: seq<NodeParam> := [NodeParam("user", CurrentUserNode)]

  /** The route `@nodnod_route` makes of `me`. */
  const MeRoute: Route<Value> := Route(MeHandler, MeAgent, {CurrentUserNode}, MeNodeParams, [RequestParam], null)

  /** `me`'s one parameter is node-injected, and the framework sees only
      `request`. */
  lemma MeDecoration()
    ensures NodeParams(MeHandler.params, MeHandler.hints) == MeNodeParams
    ensures Rewritten(MeHandler.params, NodeNames(MeNodeParams)) == Returned([RequestParam])
  {
    assert AnnotationOf(MeParam, MeHandler.hints) == ClassAnn(CurrentUserNode);
    NodeParamsSingle(MeParam, MeHandler.hints);
    var names := NodeNames(MeNodeParams);
    assert MeNodeParams[0] in MeNodeParams;
    assert "user" in names;
    assert [MeParam][..0] == [];
    assert KeptParams([MeParam], names) == [];
    assert [] + [RequestParam] == [RequestParam];
    ValidateCorrect([RequestParam]);
    assert ValidSignature([RequestParam]);
  }

  /** `@nodnod_route` applied to `me` yields `MeRoute`. */
  method DecorateMe() returns (r: Outcome<Decorated<Value>>)
    ensures r == Returned(Wrapped(MeRoute))
  {
    MeDecoration();
    assert MeNodeParams[0] in MeNodeParams;
    assert NodeClasses(MeNodeParams) == {CurrentUserNode};
    r := Decorate(MeHandler, null, (nodes: set<PyClass>) => Returned(MeAgent));
  }

  /** `GET /me`: the `x-user` header exactly when it is present and
      non-empty, otherwise 401. */
  lemma MeResponses(headers: Headers)
    ensures Served(MeRoute, map[], Req(headers), map[]).0.Returned? <==> UserHeader in headers && headers[UserHeader] != ""
    ensures UserHeader in headers && headers[UserHeader] != "" ==>
      Served(MeRoute, map[], Req(headers), map[]).0 == Returned(Text(headers[UserHeader]))
    ensures Served(MeRoute, map[], Req(headers), map[]).0.Raised? ==>
      Served(MeRoute, map[], Req(headers), map[]).0 == Raised(HttpError(401))
  {
    var view := SeededView(map[], Req(headers));
    assert view[RequestKey] == Req(headers);
    var run := MeAgent(view);
    if run.Filled? {
      var full := view + run.resolved;
      var args := Merged(map[], MeNodeParams, full);
      assert MeNodeParams[1..] == [];
      assert full[OutKey(CurrentUserNode)] == Text(headers[UserHeader]);
      assert args == Merged(Bind(map[], MeNodeParams[0], full), [], full);
      assert args == map["user" := Text(headers[UserHeader])];
      assert Binds([MeParam], args.Keys) by {
        assert [MeParam][0].name == "user";
      }
    }
  }
}
