/**
 * The rows of the database tables the routes read and write, with the fields
 * they use (lib/schema.ts and the routes' own queries). A table is a sequence
 * of rows in storage order; a query with `.limit(1)` or `findFirst` and no
 * ordering yields the first matching row of that order.
 *
 * Timestamps are milliseconds since the epoch; ids the database or `nanoid`
 * would generate are given to the operations that insert.
 */
module Tables {
  import opened Js

  datatype Role = Owner | Member

  datatype User = User(id: string, email: string, name: string)

  datatype Organization = Organization(id: string, name: string)

  datatype Membership = Membership(id: string, organizationId: string, userId: string, role: Role)

  datatype Settings = Settings(
    id: string,
    organizationId: string,
    defaultHourlyRate: Option<string>,
    brandColor: Option<string>,
    logoUrl: Option<string>)

  datatype Invite = Invite(
    id: string,
    organizationId: string,
    email: string,
    role: Role,
    invitedBy: string,
    expiresAt: int,
    accepted: bool)

  datatype Project = Project(
    id: string,
    organizationId: string,
    name: string,
    hourlyRate: string,
    status: string,
    createdBy: string,
    createdAt: int)

  datatype ChatSession = ChatSession(id: string, projectId: string, shareToken: string)

  datatype Proposal = Proposal(
    id: string,
    sessionId: string,
    summary: string,
    deltaCost: real,
    deltaWeeks: real,
    changes: Option<seq<string>>)

  datatype ChangeOrder = ChangeOrder(
    id: string,
    projectId: string,
    proposalId: string,
    clientEmail: string,
    clientNotes: Option<string>,
    status: string)

  datatype Db = Db(
    users: seq<User>,
    organizations: seq<Organization>,
    members: seq<Membership>,
    settings: seq<Settings>,
    invites: seq<Invite>,
    projects: seq<Project>,
    chatSessions: seq<ChatSession>,
    proposals: seq<Proposal>,
    changeOrders: seq<ChangeOrder>)

  /** The signed-in user, as `auth.api.getSession` gives it. */
  datatype AuthUser = AuthUser(id: string, name: string)

  /** A JSON reply: a status and either an error message or a payload. */
  datatype Reply<T> = Failure(status: int, error: string) | Success(status: int, payload: T)

  /**
   * A request body after `request.json()` and the route's zod schema: not
   * JSON at all (a `SyntaxError`), rejected by the schema (a `ZodError`), or
   * the typed value.
   */
  datatype Body<T> = NotJson | SchemaRejected | Parsed(value: T)

  /** The database the routes run against, one request at a time. */
  class Database {
    var tables: Db

    constructor(tables: Db)
      ensures this.tables == tables
    {
      this.tables := tables;
    }
  }

  /** The first element satisfying `p`, with its index. */
  function FindFirst<T>(rows: seq<T>, p: T -> bool): (r: Option<nat>)
    ensures r.Some? ==> r.value < |rows| && p(rows[r.value]) && forall k :: 0 <= k < r.value ==> !p(rows[k])
    ensures r.None? ==> forall k :: 0 <= k < |rows| ==> !p(rows[k])
    decreases |rows|
  {
    if rows == [] then None
    else if p(rows[0]) then Some(0)
    else
      var rest := FindFirst(rows[1..], p);
      if rest.Some? then Some(rest.value + 1) else None
  }

  /** An update that keeps every row's match leaves the first match where it was. */
  lemma {:induction false} FindFirstUnderUpdate<T>(rows: seq<T>, updated: seq<T>, p: T -> bool)
    requires |updated| == |rows|
    requires forall i :: 0 <= i < |rows| ==> p(updated[i]) == p(rows[i])
    ensures FindFirst(updated, p) == FindFirst(rows, p)
    decreases |rows|
  {
    if rows != [] && !p(rows[0]) {
      FindFirstUnderUpdate(rows[1..], updated[1..], p);
    }
  }

  /** An appended row is found only when no earlier row matches. */
  lemma FindFirstAfterAppend<T>(rows: seq<T>, row: T, p: T -> bool)
    ensures FindFirst(rows, p).Some? ==> FindFirst(rows + [row], p) == FindFirst(rows, p)
    ensures FindFirst(rows, p).None? ==> FindFirst(rows + [row], p) == (if p(row) then Some(|rows|) else None)
  {
    var s := rows + [row];
    var r := FindFirst(rows, p);
    if r.Some? {
      forall k | 0 <= k <= r.value ensures s[k] == rows[k] { }
      FindFirstIs(s, p, r.value);
    } else {
      forall k | 0 <= k < |rows| ensures !p(s[k]) {
        assert s[k] == rows[k];
      }
      assert s[|rows|] == row;
      if p(row) {
        FindFirstIs(s, p, |rows|);
      }
    }
  }

  /** The result of `FindFirst` is pinned down by its contract. */
  lemma FindFirstIs<T>(rows: seq<T>, p: T -> bool, i: nat)
    requires i < |rows| && p(rows[i]) && forall k :: 0 <= k < i ==> !p(rows[k])
    ensures FindFirst(rows, p) == Some(i)
  {
  }

  function OrganizationById(db: Db, id: string): (r: Option<Organization>)
    ensures r.Some? ==> r.value in db.organizations && r.value.id == id
    ensures r.None? ==> forall o :: o in db.organizations ==> o.id != id
  {
    var i := FindFirst(db.organizations, (o: Organization) => o.id == id);
    if i.Some? then Some(db.organizations[i.value]) else None
  }

  function SettingsOf(db: Db, organizationId: string): (r: Option<Settings>)
    ensures r.Some? ==> r.value in db.settings && r.value.organizationId == organizationId
    ensures r.None? ==> forall s :: s in db.settings ==> s.organizationId != organizationId
  {
    var i := FindFirst(db.settings, (s: Settings) => s.organizationId == organizationId);
    if i.Some? then Some(db.settings[i.value]) else None
  }
}
