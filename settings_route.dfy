/**
 * app/api/organization/settings/route.ts: an organization's settings row.
 * `GET` returns it and, when there is none yet and the caller is the owner,
 * creates it with the defaults; `PATCH` lets the owner rename the
 * organization and write the settings, updating the row or creating it.
 *
 * `PATCH` parses its settings a second time with the table's insert schema,
 * after the rename has been written; that schema is not part of this model,
 * so its verdict is an input (`settingsAccepted`).
 */
module SettingsRoute {
  import opened Js
  import opened Tables
  import opened AuthHelpers

  datatype SettingsOutcome = SettingsOutcome(reply: Reply<Settings>, db: Db)

  const DefaultHourlyRate := "150"
  const DefaultBrandColor := "#10b981"

  /** The row `GET` creates for an organization that has none. */
  function DefaultSettings(id: string, organizationId: string): Settings {
    Settings(id, organizationId, Some(DefaultHourlyRate), Some(DefaultBrandColor), None)
  }

  /** `GET ?organizationId=`; an empty parameter counts as missing. */
  function GetSettings(d: Db, user: Option<AuthUser>, organizationId: Option<string>, freshId: string): SettingsOutcome {
    if user.None? then SettingsOutcome(Failure(401, "Unauthorized"), d)
    else if organizationId.None? || organizationId.value == "" then
      SettingsOutcome(Failure(400, "organizationId is required"), d)
    else if !IsMember(d.members, user.value.id, organizationId.value) then
      SettingsOutcome(Failure(403, "Not a member of this organization"), d)
    else
      var found := SettingsOf(d, organizationId.value);
      if found.Some? then SettingsOutcome(Success(200, found.value), d)
      else if !IsOwner(d.members, user.value.id, organizationId.value) then
        SettingsOutcome(Failure(404, "Organization settings not configured. Contact organization owner."), d)
      else
        var row := DefaultSettings(freshId, organizationId.value);
        SettingsOutcome(Success(200, row), d.(settings := d.settings + [row]))
  }

  /**
   * A member gets the organization's first settings row and nothing changes;
   * when there is none, the owner gets a new row with the defaults, stored
   * last, and anyone else a 404 with nothing stored.
   */
  lemma GetSettingsOutcomes(d: Db, user: AuthUser, organizationId: string, freshId: string)
    requires organizationId != ""
    requires IsMember(d.members, user.id, organizationId)
    ensures var o := GetSettings(d, Some(user), Some(organizationId), freshId);
      && (SettingsOf(d, organizationId).Some? ==> o == SettingsOutcome(Success(200, SettingsOf(d, organizationId).value), d))
      && (SettingsOf(d, organizationId).None? && IsOwner(d.members, user.id, organizationId) ==>
            && o.reply == Success(200, Settings(freshId, organizationId, Some("150"), Some("#10b981"), None))
            && o.db == d.(settings := d.settings + [o.reply.payload])
            && SettingsOf(o.db, organizationId) == Some(o.reply.payload))
      && (SettingsOf(d, organizationId).None? && !IsOwner(d.members, user.id, organizationId) ==>
            o.reply.Failure? && o.reply.status == 404 && o.db == d)
  {
    if SettingsOf(d, organizationId).None? && IsOwner(d.members, user.id, organizationId) {
      var row := DefaultSettings(freshId, organizationId);
      FindFirstAfterAppend(d.settings, row, (s: Settings) => s.organizationId == organizationId);
    }
  }

  /** `GET` answers 401, 400 and 403 in that order, and only a successful `GET` can store a row. */
  lemma GetSettingsCheckOrder(d: Db, user: Option<AuthUser>, organizationId: Option<string>, freshId: string)
    ensures var o := GetSettings(d, user, organizationId, freshId);
      && (user.None? ==> o.reply.status == 401)
      && (user.Some? && (organizationId.None? || organizationId == Some("")) ==> o.reply.status == 400)
      && ((user.Some? && organizationId.Some? && organizationId.value != ""
            && !IsMember(d.members, user.value.id, organizationId.value)) ==> o.reply.status == 403)
      && (o.reply.Failure? ==> o.db == d)
  {
  }

  /** Once the owner's `GET` has created the row, every member's `GET` returns that same row and stores nothing. */
  lemma GetSettingsCreatesOnce(d: Db, owner: AuthUser, other: AuthUser, organizationId: string, id1: string, id2: string)
    requires organizationId != ""
    requires IsOwner(d.members, owner.id, organizationId)
    requires IsMember(d.members, other.id, organizationId)
    ensures var first := GetSettings(d, Some(owner), Some(organizationId), id1);
      GetSettings(first.db, Some(other), Some(organizationId), id2) == first
  {
    OwnerIsMember(d.members, owner.id, organizationId);
    GetSettingsOutcomes(d, owner, organizationId, id1);
    var first := GetSettings(d, Some(owner), Some(organizationId), id1);
    assert first.db.members == d.members;
    GetSettingsOutcomes(first.db, other, organizationId, id2);
  }

  // ---------------------------------------------------------------------------
  // PATCH

  datatype SettingsUpdate = SettingsUpdate(
    organizationId: string,
    name: Option<string>,
    defaultHourlyRate: Option<string>,
    brandColor: Option<string>,
    logoUrl: Option<string>)

  /** The field as the update leaves it: a value given replaces it, an absent one leaves it alone. */
  function Keep(given: Option<string>, current: Option<string>): (r: Option<string>)
    ensures given.Some? ==> r == given
    ensures given.None? ==> r == current
  {
    if given.Some? then given else current
  }

  function UpdatedRow(row: Settings, u: SettingsUpdate): Settings {
    row.(defaultHourlyRate := Keep(u.defaultHourlyRate, row.defaultHourlyRate),
         brandColor := Keep(u.brandColor, row.brandColor),
         logoUrl := Keep(u.logoUrl, row.logoUrl))
  }

  /** The `update ... where organizationId` statement: every row of that organization, and no other, is updated. */
  function UpdatedSettings(rows: seq<Settings>, u: SettingsUpdate): (r: seq<Settings>)
    ensures |r| == |rows|
    ensures forall i :: 0 <= i < |rows| ==>
      r[i] == (if rows[i].organizationId == u.organizationId then UpdatedRow(rows[i], u) else rows[i])
  {
    seq(|rows|, i requires 0 <= i < |rows| =>
      if rows[i].organizationId == u.organizationId then UpdatedRow(rows[i], u) else rows[i])
  }

  /** The rename: every organization row with that id gets the new name. */
  function Renamed(orgs: seq<Organization>, id: string, name: string): (r: seq<Organization>)
    ensures |r| == |orgs|
    ensures forall i :: 0 <= i < |orgs| ==> r[i] == (if orgs[i].id == id then orgs[i].(name := name) else orgs[i])
  {
    seq(|orgs|, i requires 0 <= i < |orgs| => if orgs[i].id == id then orgs[i].(name := name) else orgs[i])
  }

  /** `PATCH`, given the body, the insert schema's verdict on the settings and the id a new row would get. */
  function PatchSettings(d: Db, user: Option<AuthUser>, body: Body<SettingsUpdate>, settingsAccepted: bool,
                         freshId: string): SettingsOutcome {
    if user.None? then SettingsOutcome(Failure(401, "Unauthorized"), d)
    else match body
      case NotJson => SettingsOutcome(Failure(500, "Failed to update settings"), d)
      case SchemaRejected => SettingsOutcome(Failure(400, "Invalid input"), d)
      case Parsed(u) =>
        if !IsOwner(d.members, user.value.id, u.organizationId) then
          SettingsOutcome(Failure(403, "Only organization owners can update settings"), d)
        else
          var rename := u.name.Some? && u.name.value != "";
          if rename && OrganizationById(d, u.organizationId).None? then
            SettingsOutcome(Failure(404, "Organization not found"), d)
          else
            var d1 := if rename then d.(organizations := Renamed(d.organizations, u.organizationId, u.name.value)) else d;
            if !settingsAccepted then SettingsOutcome(Failure(400, "Invalid input"), d1)
            else
              var found := SettingsOf(d1, u.organizationId);
              if found.Some? then
                SettingsOutcome(Success(200, UpdatedRow(found.value, u)), d1.(settings := UpdatedSettings(d1.settings, u)))
              else
                var row := Settings(freshId, u.organizationId, u.defaultHourlyRate, u.brandColor, u.logoUrl);
                SettingsOutcome(Success(200, row), d1.(settings := d1.settings + [row]))
  }

  /**
   * Only an owner gets past the checks, and a rename of an organization that
   * does not exist is a 404 that stores nothing. A successful `PATCH` renames
   * the organization when the body gave a non-empty name, and leaves the
   * organization with a first settings row equal to the reply, holding every
   * field the body gave and the old value of every field it left out.
   */
  lemma PatchSettingsOutcomes(d: Db, user: AuthUser, u: SettingsUpdate, settingsAccepted: bool, freshId: string)
    ensures var o := PatchSettings(d, Some(user), Parsed(u), settingsAccepted, freshId);
      && (!IsOwner(d.members, user.id, u.organizationId) ==> o == SettingsOutcome(Failure(403, "Only organization owners can update settings"), d))
      && (IsOwner(d.members, user.id, u.organizationId) && u.name.Some? && u.name.value != ""
            && OrganizationById(d, u.organizationId).None? ==>
            o == SettingsOutcome(Failure(404, "Organization not found"), d))
      && (o.reply.Success? <==> (IsOwner(d.members, user.id, u.organizationId) && settingsAccepted
            && (u.name.Some? && u.name.value != "" ==> OrganizationById(d, u.organizationId).Some?)))
      && (o.reply.Success? ==>
            o.db.organizations == (if u.name.Some? && u.name.value != ""
                                   then Renamed(d.organizations, u.organizationId, u.name.value)
                                   else d.organizations))
      && (o.reply.Success? ==>
            var prior := SettingsOf(d, u.organizationId);
            var s := o.reply.payload;
            && SettingsOf(o.db, u.organizationId) == Some(s)
            && s.organizationId == u.organizationId
            && (prior.Some? ==> s.id == prior.value.id)
            && s.defaultHourlyRate == (if prior.Some? then Keep(u.defaultHourlyRate, prior.value.defaultHourlyRate) else u.defaultHourlyRate)
            && s.brandColor == (if prior.Some? then Keep(u.brandColor, prior.value.brandColor) else u.brandColor)
            && s.logoUrl == (if prior.Some? then Keep(u.logoUrl, prior.value.logoUrl) else u.logoUrl))
  {
    var o := PatchSettings(d, Some(user), Parsed(u), settingsAccepted, freshId);
    if o.reply.Success? {
      var rename := u.name.Some? && u.name.value != "";
      var d1 := if rename then d.(organizations := Renamed(d.organizations, u.organizationId, u.name.value)) else d;
      assert d1.settings == d.settings;
      var p := (s: Settings) => s.organizationId == u.organizationId;
      if SettingsOf(d, u.organizationId).Some? {
        FindFirstUnderUpdate(d.settings, UpdatedSettings(d.settings, u), p);
      } else {
        var row := Settings(freshId, u.organizationId, u.defaultHourlyRate, u.brandColor, u.logoUrl);
        FindFirstAfterAppend(d.settings, row, p);
      }
    }
  }

  /**
   * A non-empty name renames the organization before the settings are
   * parsed again, and that rename stays when the settings are then refused
   * with a 400. Without a name the organizations are untouched.
   */
  lemma PatchRenameSurvivesRejection(d: Db, user: AuthUser, u: SettingsUpdate, freshId: string)
    requires IsOwner(d.members, user.id, u.organizationId)
    requires u.name.Some? && u.name.value != ""
    requires OrganizationById(d, u.organizationId).Some?
    ensures var o := PatchSettings(d, Some(user), Parsed(u), false, freshId);
      && o.reply == Failure(400, "Invalid input")
      && (exists org :: org in o.db.organizations && org.id == u.organizationId)
      && (forall org :: org in o.db.organizations && org.id == u.organizationId ==> org.name == u.name.value)
      && o.db.settings == d.settings
  {
    var o := PatchSettings(d, Some(user), Parsed(u), false, freshId);
    var org := OrganizationById(d, u.organizationId).value;
    var i :| 0 <= i < |d.organizations| && d.organizations[i] == org;
    assert o.db.organizations[i].id == u.organizationId;
  }

  /** Without a non-empty name no organization row changes, whatever else happens. */
  lemma PatchWithoutNameKeepsOrganizations(d: Db, user: Option<AuthUser>, body: Body<SettingsUpdate>, settingsAccepted: bool,
                                           freshId: string)
    requires body.Parsed? ==> body.value.name.None? || body.value.name == Some("")
    ensures PatchSettings(d, user, body, settingsAccepted, freshId).db.organizations == d.organizations
  {
  }

  /** `PATCH` as it runs. */
  method PatchSettingsRoute(db: Database, user: Option<AuthUser>, body: Body<SettingsUpdate>, settingsAccepted: bool,
                            freshId: string) returns (reply: Reply<Settings>)
    modifies db
    ensures SettingsOutcome(reply, db.tables) == PatchSettings(old(db.tables), user, body, settingsAccepted, freshId)
  {
    if user.None? {
      return Failure(401, "Unauthorized");
    }
    if body.NotJson? {
      return Failure(500, "Failed to update settings");
    }
    if body.SchemaRejected? {
      return Failure(400, "Invalid input");
    }
    var u := body.value;
    if !IsOwner(db.tables.members, user.value.id, u.organizationId) {
      return Failure(403, "Only organization owners can update settings");
    }
    if u.name.Some? && u.name.value != "" {
      if OrganizationById(db.tables, u.organizationId).None? {
        return Failure(404, "Organization not found");
      }
      db.tables := db.tables.(organizations := Renamed(db.tables.organizations, u.organizationId, u.name.value));
    }
    if !settingsAccepted {
      return Failure(400, "Invalid input");
    }
    var found := SettingsOf(db.tables, u.organizationId);
    if found.Some? {
      db.tables := db.tables.(settings := UpdatedSettings(db.tables.settings, u));
      reply := Success(200, UpdatedRow(found.value, u));
    } else {
      var row := Settings(freshId, u.organizationId, u.defaultHourlyRate, u.brandColor, u.logoUrl);
      db.tables := db.tables.(settings := db.tables.settings + [row]);
      reply := Success(200, row);
    }
  }

  /** `GET` as it runs. */
  method GetSettingsRoute(db: Database, user: Option<AuthUser>, organizationId: Option<string>, freshId: string)
    returns (reply: Reply<Settings>)
    modifies db
    ensures SettingsOutcome(reply, db.tables) == GetSettings(old(db.tables), user, organizationId, freshId)
  {
    if user.None? {
      return Failure(401, "Unauthorized");
    }
    if organizationId.None? || organizationId.value == "" {
      return Failure(400, "organizationId is required");
    }
    var orgId := organizationId.value;
    if !IsMember(db.tables.members, user.value.id, orgId) {
      return Failure(403, "Not a member of this organization");
    }
    var found := SettingsOf(db.tables, orgId);
    if found.None? {
      if !IsOwner(db.tables.members, user.value.id, orgId) {
        return Failure(404, "Organization settings not configured. Contact organization owner.");
      }
      var row := DefaultSettings(freshId, orgId);
      db.tables := db.tables.(settings := db.tables.settings + [row]);
      return Success(200, row);
    }
    reply := Success(200, found.value);
  }
}
