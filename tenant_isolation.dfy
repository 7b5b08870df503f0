/** The multi-tenant example application: a module-level project list that
    every tenant's database view shares, a `CurrentTenant` node read from
    the `x-tenant` header, a `DB` node wrapping it, and the two `/projects`
    handlers. */
module TenantIsolation {
  import opened Py

  type Headers = map<string, string>

  datatype Tenant = Tenant(id: string, name: string)

  datatype Project = Project(id: int, tenantId: string, name: string)

  /** One entry of the `/projects` listing: `{"id": ..., "name": ...}`. */
  datatype Summary = Summary(id: int, name: string)

  const TenantHeader: string := "x-tenant"

  /** `TENANTS`. */
  const Tenants: map<string, Tenant> := map[
    "acme" := Tenant("acme", "Acme Corp"),
    "startup" := Tenant("startup", "Startup Inc")]

  /** `PROJECTS` as the module defines it. */
  const InitialProjects: seq<Project> := [
    Project(1, "acme", "Website"),
    Project(2, "acme", "Mobile App"),
    Project(3, "startup", "MVP")]

  /** Every project's id is its position in the list, counted from one;
      ids are therefore distinct. */
  predicate IdsArePositions(rows: seq<Project>)
  {
    forall i :: 0 <= i < |rows| ==> rows[i].id == i + 1
  }

  /** `[p for p in rows if p.tenant_id == tenantId]`. */
  function Visible(rows: seq<Project>, tenantId: string): (r: seq<Project>)
    ensures forall p :: p in r <==> p in rows && p.tenantId == tenantId
  {
    if rows == [] then []
    else Visible(rows[..|rows| - 1], tenantId) + (if rows[|rows| - 1].tenantId == tenantId then [rows[|rows| - 1]] else [])
  }

  /** Filtering a concatenation filters each part, keeping their order. */
  lemma {:induction false} VisibleAppend(a: seq<Project>, b: seq<Project>, tenantId: string)
    ensures Visible(a + b, tenantId) == Visible(a, tenantId) + Visible(b, tenantId)
    decreases |b|
  {
    if b == [] {
      assert a + b == a;
    } else {
      var b' := b[..|b| - 1];
      assert (a + b)[..|a + b| - 1] == a + b';
      VisibleAppend(a, b', tenantId);
    }
  }

  /** A list holding only one tenant's projects is its own filtered view. */
  lemma {:induction false} VisibleAll(rows: seq<Project>, tenantId: string)
    requires forall i :: 0 <= i < |rows| ==> rows[i].tenantId == tenantId
    ensures Visible(rows, tenantId) == rows
  {
    if rows != [] {
      VisibleAll(rows[..|rows| - 1], tenantId);
    }
  }

  /** Appending a project shows it, last, to its own tenant, and changes
      nothing for any other tenant. */
  lemma AppendIsolation(rows: seq<Project>, p: Project, tenantId: string)
    ensures p.tenantId == tenantId ==> Visible(rows + [p], tenantId) == Visible(rows, tenantId) + [p]
    ensures p.tenantId != tenantId ==> Visible(rows + [p], tenantId) == Visible(rows, tenantId)
  {
    VisibleAppend(rows, [p], tenantId);
    assert [p][..0] == [];
  }

  /** The list-comprehension of `list_projects`: one summary per project,
      in the same order. */
  function Summaries(ps: seq<Project>): (r: seq<Summary>)
    ensures |r| == |ps|
    ensures forall i :: 0 <= i < |ps| ==> r[i] == Summary(ps[i].id, ps[i].name)
  {
    if ps == [] then [] else Summaries(ps[..|ps| - 1]) + [Summary(ps[|ps| - 1].id, ps[|ps| - 1].name)]
  }

  /** The module-level `PROJECTS` list, shared by every `TenantDB`. */
  class ProjectTable {
    var rows: seq<Project>

    ghost predicate Valid()
      reads this
    {
      IdsArePositions(rows)
    }

    constructor ()
      ensures rows == InitialProjects && Valid()
    {
      rows := InitialProjects;
    }
  }

  /** `TenantDB`: one tenant's view of the shared table. */
  class TenantDB {
    const tenant: Tenant
    const table: ProjectTable

    /** `TenantDB(tenant)`. */
    constructor (tenant: Tenant, table: ProjectTable)
      ensures this.tenant == tenant && this.table == table
    {
      this.tenant := tenant;
      this.table := table;
    }

    /** `projects()`: the tenant's projects and no other, in table order. */
    function Projects(): (r: seq<Project>)
      reads table
      ensures forall p :: p in r <==> p in table.rows && p.tenantId == tenant.id
    {
      Visible(table.rows, tenant.id)
    }

    /** `create_project(name)`: append a project numbered one past the
        current length, owned by this tenant; ids stay positions. */
    method CreateProject(name: string) returns (p: Project)
      requires table.Valid()
      modifies table
      ensures table.Valid()
      ensures p == Project(|old(table.rows)| + 1, tenant.id, name)
      ensures table.rows == old(table.rows) + [p]
      ensures Projects() == old(Projects()) + [p]
      ensures forall t :: t != tenant.id ==> Visible(table.rows, t) == Visible(old(table.rows), t)
    {
      p := Project(|table.rows| + 1, tenant.id, name);
      AppendIsolation(table.rows, p, tenant.id);
      forall t | t != tenant.id ensures Visible(table.rows + [p], t) == Visible(table.rows, t) {
        AppendIsolation(table.rows, p, t);
      }
      table.rows := table.rows + [p];
    }
  }

  /** Positions as ids are distinct ids. */
  lemma IdsDistinct(rows: seq<Project>, i: nat, j: nat)
    requires IdsArePositions(rows)
    requires i < j < |rows|
    ensures rows[i].id != rows[j].id
  {
  }

  /** `CurrentTenant.__compose__`: the tenant named by the `x-tenant`
      header (absent reads as `""`), or 400 for an unknown one. */
  function CurrentTenant(headers: Headers): (r: Outcome<Tenant>)
    ensures r.Returned? <==> (if TenantHeader in headers then headers[TenantHeader] else "") in Tenants
    ensures r.Returned? ==> r.value == Tenants[headers[TenantHeader]]
    ensures r.Raised? ==> r.error == HttpError(400)
  {
    var tid := if TenantHeader in headers then headers[TenantHeader] else "";
    if tid !in Tenants then Raised(HttpError(400)) else Returned(Tenants[tid])
  }

  /** `DB.__compose__`: the database of the resolved tenant. */
  method DB(tenant: Tenant, table: ProjectTable) returns (db: TenantDB)
    ensures fresh(db) && db.tenant == tenant && db.table == table
  {
    db := new TenantDB(tenant, table);
  }

  /** `GET /projects`: the summaries of the current tenant's projects. */
  function ListProjects(db: TenantDB): (r: seq<Summary>)
    reads db.table
    ensures |r| == |db.Projects()|
    ensures forall i :: 0 <= i < |r| ==> r[i] == Summary(db.Projects()[i].id, db.Projects()[i].name)
  {
    Summaries(db.Projects())
  }

  /** What `GET /projects` answers for these headers: 400 for an unknown
      tenant, otherwise exactly the summaries of that tenant's projects. */
  method ServeListProjects(headers: Headers, table: ProjectTable) returns (r: Outcome<seq<Summary>>)
    ensures CurrentTenant(headers).Raised? ==> r == Raised(HttpError(400))
    ensures CurrentTenant(headers).Returned? ==>
      r == Returned(Summaries(Visible(table.rows, CurrentTenant(headers).value.id)))
  {
    match CurrentTenant(headers)
    case Raised(e) =>
      r := Raised(e);
    case Returned(tenant) =>
      var db := DB(tenant, table);
      r := Returned(ListProjects(db));
  }

  /** `POST /projects`: the current tenant's new project, summarised. */
  method ServeCreateProject(headers: Headers, name: string, table: ProjectTable) returns (r: Outcome<Summary>)
    requires table.Valid()
    modifies table
    ensures table.Valid()
    ensures CurrentTenant(headers).Raised? ==> r == Raised(HttpError(400)) && table.rows == old(table.rows)
    ensures CurrentTenant(headers).Returned? ==>
      && r == Returned(Summary(|old(table.rows)| + 1, name))
      && table.rows == old(table.rows) + [Project(|old(table.rows)| + 1, CurrentTenant(headers).value.id, name)]
  {
    match CurrentTenant(headers)
    case Raised(e) =>
      r := Raised(e);
    case Returned(tenant) =>
      var db := DB(tenant, table);
      var p := db.CreateProject(name);
      r := Returned(Summary(p.id, p.name));
  }

  /** A tenant never lists another tenant's project. */
  lemma ListingIsolated(rows: seq<Project>, tenantId: string, s: Summary)
    requires IdsArePositions(rows)
    requires s in Summaries(Visible(rows, tenantId))
    ensures 0 < s.id <= |rows| && rows[s.id - 1].tenantId == tenantId && rows[s.id - 1].name == s.name
  {
    var v := Visible(rows, tenantId);
    var i :| 0 <= i < |v| && Summaries(v)[i] == s;
    assert v[i] in rows;
    var j :| 0 <= j < |rows| && rows[j] == v[i];
  }
}
