/**
 * app/api/projects/route.ts: listing an organization's projects, newest
 * first, and creating a draft project whose hourly rate falls back to the
 * organization's default and then to 150.
 */
module ProjectsRoute {
  import opened Js
  import opened Tables
  import opened AuthHelpers

  // ---------------------------------------------------------------------------
  // GET

  /** The `where` clause: the organization, and the status when one is given. */
  predicate Selected(p: Project, organizationId: string, status: Option<string>) {
    p.organizationId == organizationId && (status.Some? && status.value != "" ==> p.status == status.value)
  }

  /** The selected rows in storage order. */
  function SelectedRows(rows: seq<Project>, organizationId: string, status: Option<string>): (r: seq<Project>)
    ensures forall p :: p in r <==> p in rows && Selected(p, organizationId, status)
    ensures |r| <= |rows|
  {
    if rows == [] then []
    else
      var rest := SelectedRows(rows[1..], organizationId, status);
      assert forall p :: p in rows <==> p == rows[0] || p in rows[1..];
      if Selected(rows[0], organizationId, status) then [rows[0]] + rest else rest
  }

  /** Newest first: `createdAt` never increases along the list. */
  predicate NewestFirst(ps: seq<Project>) {
    forall i, j :: 0 <= i < j < |ps| ==> ps[i].createdAt >= ps[j].createdAt
  }

  /**
   * `orderBy(desc(createdAt))`. Rows with the same timestamp come in an order
   * the database chooses; the model keeps them in storage order.
   */
  function Insert(p: Project, sorted: seq<Project>): (r: seq<Project>)
    requires NewestFirst(sorted)
    ensures NewestFirst(r)
    ensures multiset(r) == multiset(sorted) + multiset{p}
  {
    if sorted == [] || p.createdAt >= sorted[0].createdAt then
      ConsNewestFirst(p, sorted);
      [p] + sorted
    else
      var rest := Insert(p, sorted[1..]);
      assert sorted == [sorted[0]] + sorted[1..];
      forall j | 0 <= j < |rest| ensures sorted[0].createdAt >= rest[j].createdAt {
        assert rest[j] in multiset(rest);
        if rest[j] != p {
          assert rest[j] in multiset(sorted[1..]);
          var k :| 0 <= k < |sorted[1..]| && sorted[1..][k] == rest[j];
          assert sorted[k + 1] == rest[j];
        }
      }
      ConsNewestFirst(sorted[0], rest);
      [sorted[0]] + rest
  }

  /** A row no older than every row of a newest-first list can go in front of it. */
  lemma ConsNewestFirst(x: Project, rest: seq<Project>)
    requires NewestFirst(rest)
    requires forall j :: 0 <= j < |rest| ==> x.createdAt >= rest[j].createdAt
    ensures NewestFirst([x] + rest)
  {
    var r := [x] + rest;
    forall i, j | 0 <= i < j < |r| ensures r[i].createdAt >= r[j].createdAt {
      assert r[j] == rest[j - 1];
      if i > 0 {
        assert r[i] == rest[i - 1];
      }
    }
  }

  function SortNewestFirst(ps: seq<Project>): (r: seq<Project>)
    ensures NewestFirst(r)
    ensures multiset(r) == multiset(ps)
  {
    if ps == [] then []
    else
      assert ps == [ps[0]] + ps[1..];
      Insert(ps[0], SortNewestFirst(ps[1..]))
  }

  /** `GET ?organizationId=&status=`: empty parameters count as missing. */
  function ListProjects(d: Db, user: Option<AuthUser>, organizationId: Option<string>, status: Option<string>)
    : Reply<seq<Project>>
  {
    if user.None? then Failure(401, "Unauthorized")
    else if organizationId.None? || organizationId.value == "" then Failure(400, "organizationId is required")
    else if !IsMember(d.members, user.value.id, organizationId.value) then Failure(403, "Not a member of this organization")
    else Success(200, SortNewestFirst(SelectedRows(d.projects, organizationId.value, status)))
  }

  /**
   * A member gets exactly the organization's projects (of the given status
   * when one is given), each as often as it is stored, newest first; the
   * checks answer 401, 400 and 403 in that order.
   */
  lemma ListProjectsContents(d: Db, user: Option<AuthUser>, organizationId: Option<string>, status: Option<string>)
    ensures var r := ListProjects(d, user, organizationId, status);
      && (user.None? ==> r == Failure(401, "Unauthorized"))
      && (user.Some? && (organizationId.None? || organizationId == Some("")) ==>
            r == Failure(400, "organizationId is required"))
      && (user.Some? && organizationId.Some? && organizationId.value != ""
          && !IsMember(d.members, user.value.id, organizationId.value) ==>
            r == Failure(403, "Not a member of this organization"))
      && (r.Success? <==> (user.Some? && organizationId.Some? && organizationId.value != ""
            && IsMember(d.members, user.value.id, organizationId.value)))
      && (r.Success? ==>
            && NewestFirst(r.payload)
            && multiset(r.payload) == multiset(SelectedRows(d.projects, organizationId.value, status))
            && (forall p :: p in r.payload <==> p in d.projects && Selected(p, organizationId.value, status)))
  {
    var r := ListProjects(d, user, organizationId, status);
    if r.Success? {
      var selected := SelectedRows(d.projects, organizationId.value, status);
      forall p ensures p in r.payload <==> p in selected {
        assert p in r.payload <==> p in multiset(r.payload);
        assert p in selected <==> p in multiset(selected);
      }
    }
  }

  /** Without a status every project of the organization is listed; with one, a subset of those. */
  lemma {:induction false} StatusNarrowsTheList(rows: seq<Project>, organizationId: string, status: string)
    ensures multiset(SelectedRows(rows, organizationId, Some(status))) <= multiset(SelectedRows(rows, organizationId, None))
    ensures SelectedRows(rows, organizationId, Some("")) == SelectedRows(rows, organizationId, None)
  {
    if rows != [] {
      StatusNarrowsTheList(rows[1..], organizationId, status);
    }
  }

  // ---------------------------------------------------------------------------
  // POST

  datatype NewProject = NewProject(organizationId: string, name: string, hourlyRate: Option<string>)

  const FallbackHourlyRate := "150"

  /** The rate the body gives, else the organization's non-empty default, else 150. */
  function HourlyRateFor(d: Db, data: NewProject): (rate: string)
    ensures rate != ""
  {
    if data.hourlyRate.Some? && data.hourlyRate.value != "" then data.hourlyRate.value
    else
      var s := SettingsOf(d, data.organizationId);
      if s.Some? && s.value.defaultHourlyRate.Some? && s.value.defaultHourlyRate.value != "" then
        s.value.defaultHourlyRate.value
      else FallbackHourlyRate
  }

  datatype ProjectOutcome = ProjectOutcome(reply: Reply<Project>, db: Db)

  /** `POST`, given the id and timestamp the database assigns. */
  function CreateProject(d: Db, user: Option<AuthUser>, body: Body<NewProject>, freshId: string, now: int): ProjectOutcome {
    if user.None? then ProjectOutcome(Failure(401, "Unauthorized"), d)
    else match body
      case NotJson => ProjectOutcome(Failure(500, "Failed to create project"), d)
      case SchemaRejected => ProjectOutcome(Failure(400, "Invalid input"), d)
      case Parsed(data) =>
        if !IsMember(d.members, user.value.id, data.organizationId) then
          ProjectOutcome(Failure(403, "Not a member of this organization"), d)
        else
          var p := Project(freshId, data.organizationId, data.name, HourlyRateFor(d, data), "draft", user.value.id, now);
          ProjectOutcome(Success(201, p), d.(projects := d.projects + [p]))
  }

  /**
   * A member's project is stored as a draft created by them, with the rate
   * chosen by the three-step fallback; the new project then shows up in the
   * organization's list. Everyone else stores nothing.
   */
  lemma CreateProjectOutcome(d: Db, user: AuthUser, data: NewProject, freshId: string, now: int)
    ensures var o := CreateProject(d, Some(user), Parsed(data), freshId, now);
      && (!IsMember(d.members, user.id, data.organizationId) ==> o == ProjectOutcome(Failure(403, "Not a member of this organization"), d))
      && (IsMember(d.members, user.id, data.organizationId) ==>
            && o.reply.Success? && o.reply.status == 201
            && var p := o.reply.payload;
            && p.status == "draft" && p.createdBy == user.id && p.organizationId == data.organizationId && p.name == data.name
            && (data.hourlyRate.Some? && data.hourlyRate.value != "" ==> p.hourlyRate == data.hourlyRate.value)
            && ((data.hourlyRate.None? || data.hourlyRate == Some("")) ==>
                  var s := SettingsOf(d, data.organizationId);
                  p.hourlyRate == (if s.Some? && s.value.defaultHourlyRate.Some? && s.value.defaultHourlyRate.value != ""
                                   then s.value.defaultHourlyRate.value else "150"))
            && o.db == d.(projects := d.projects + [p])
            && (data.organizationId != "" ==> p in ListProjects(o.db, Some(user), Some(data.organizationId), None).payload))
  {
    var o := CreateProject(d, Some(user), Parsed(data), freshId, now);
    if IsMember(d.members, user.id, data.organizationId) && data.organizationId != "" {
      ListProjectsContents(o.db, Some(user), Some(data.organizationId), None);
    }
  }

  /** `POST` as it runs. */
  method CreateProjectRoute(db: Database, user: Option<AuthUser>, body: Body<NewProject>, freshId: string, now: int)
    returns (reply: Reply<Project>)
    modifies db
    ensures ProjectOutcome(reply, db.tables) == CreateProject(old(db.tables), user, body, freshId, now)
  {
    if user.None? {
      return Failure(401, "Unauthorized");
    }
    if body.NotJson? {
      return Failure(500, "Failed to create project");
    }
    if body.SchemaRejected? {
      return Failure(400, "Invalid input");
    }
    var data := body.value;
    if !IsMember(db.tables.members, user.value.id, data.organizationId) {
      return Failure(403, "Not a member of this organization");
    }
    var hourlyRate := "";
    if data.hourlyRate.Some? {
      hourlyRate := data.hourlyRate.value;
    }
    if hourlyRate == "" {
      var s := SettingsOf(db.tables, data.organizationId);
      hourlyRate := if s.Some? && s.value.defaultHourlyRate.Some? && s.value.defaultHourlyRate.value != ""
                    then s.value.defaultHourlyRate.value else FallbackHourlyRate;
    }
    var p := Project(freshId, data.organizationId, data.name, hourlyRate, "draft", user.value.id, now);
    db.tables := db.tables.(projects := db.tables.projects + [p]);
    reply := Success(201, p);
  }
}
