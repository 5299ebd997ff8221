/**
 * app/api/organization/invite/route.ts: an owner invites someone by email.
 * The rate limiter answers first, then the session, the body, ownership, the
 * organization and the duplicate rule are checked in that order, and one
 * invite row is stored.
 *
 * The rate limiter's verdict is an input (lib/rate-limit.ts is modelled on its
 * own). The invitation email is started and not awaited: the reply never
 * depends on it, so the model records only the address it is sent to.
 */
module InviteRoute {
  import opened Js
  import opened Tables
  import opened AuthHelpers
  import RateLimit

  datatype InviteData = InviteData(organizationId: string, email: string, role: Role)

  datatype InviteReply =
    | RateLimited(retryAfter: Option<int>)
    | Rejected(status: int, error: string)
    /** A 500 carrying the message of the exception (here, the JSON parser's). */
    | ServerError
    | Sent(invite: Invite)

  datatype InviteOutcome = InviteOutcome(reply: InviteReply, db: Db, emailTo: Option<string>)

  const DayMs := 24 * 60 * 60 * 1000
  const InviteLifetimeDays := 7

  function Status(r: InviteReply): int {
    match r
    case RateLimited(_) => 429
    case Rejected(status, _) => status
    case ServerError => 500
    case Sent(_) => 200
  }

  /** The first invite to that address in that organization, accepted or not. */
  predicate AlreadyInvited(d: Db, organizationId: string, email: string) {
    FindFirst(d.invites, (i: Invite) => i.organizationId == organizationId && i.email == email).Some?
  }

  /** `POST`, given the limiter's verdict, the session, the parsed body, the new row's id and the time. */
  function PostInvite(d: Db, rate: RateLimit.Outcome, user: Option<AuthUser>, body: Body<InviteData>,
                      freshId: string, now: int): InviteOutcome {
    if !rate.success then InviteOutcome(RateLimited(rate.reset), d, None)
    else if user.None? then InviteOutcome(Rejected(401, "Unauthorized"), d, None)
    else match body
      case NotJson => InviteOutcome(ServerError, d, None)
      case SchemaRejected => InviteOutcome(Rejected(400, "Invalid input"), d, None)
      case Parsed(data) =>
        if !IsOwner(d.members, user.value.id, data.organizationId) then
          InviteOutcome(Rejected(403, "Only organization owners can send invitations"), d, None)
        else if OrganizationById(d, data.organizationId).None? then
          InviteOutcome(Rejected(404, "Organization not found"), d, None)
        else if AlreadyInvited(d, data.organizationId, data.email) then
          InviteOutcome(Rejected(400, "User already invited"), d, None)
        else
          var invite := Invite(freshId, data.organizationId, data.email, data.role, user.value.id,
                               now + InviteLifetimeDays * DayMs, false);
          InviteOutcome(Sent(invite), d.(invites := d.invites + [invite]), Some(Trim(invite.email)))
  }

  /**
   * The limiter is consulted before anything else: a denial is a 429 carrying
   * its reset time, whatever the session and the body.
   */
  lemma RateLimitComesFirst(d: Db, rate: RateLimit.Outcome, user: Option<AuthUser>, body: Body<InviteData>,
                            freshId: string, now: int)
    requires !rate.success
    ensures PostInvite(d, rate, user, body, freshId, now) == InviteOutcome(RateLimited(rate.reset), d, None)
  {
  }

  /**
   * The checks answer in order 401, then the body's 500 or 400, then 403, 404
   * and the duplicate's 400; a refused request stores nothing and mails no
   * one. A request that passes them all stores exactly one invite.
   */
  lemma PostInviteCheckOrder(d: Db, rate: RateLimit.Outcome, user: Option<AuthUser>, body: Body<InviteData>,
                             freshId: string, now: int)
    ensures var o := PostInvite(d, rate, user, body, freshId, now);
      && (!o.reply.Sent? ==> o.db == d && o.emailTo.None?)
      && (rate.success && user.None? ==> o.reply == Rejected(401, "Unauthorized"))
      && (rate.success && user.Some? && body.NotJson? ==> o.reply == ServerError && Status(o.reply) == 500)
      && (rate.success && user.Some? && body.SchemaRejected? ==> o.reply == Rejected(400, "Invalid input"))
      && (rate.success && user.Some? && body.Parsed? ==>
            var data := body.value;
            && (!IsOwner(d.members, user.value.id, data.organizationId) ==>
                  o.reply == Rejected(403, "Only organization owners can send invitations"))
            && (IsOwner(d.members, user.value.id, data.organizationId) && OrganizationById(d, data.organizationId).None? ==>
                  o.reply == Rejected(404, "Organization not found"))
            && (IsOwner(d.members, user.value.id, data.organizationId) && OrganizationById(d, data.organizationId).Some?
                && AlreadyInvited(d, data.organizationId, data.email) ==>
                  o.reply == Rejected(400, "User already invited"))
            && (o.reply.Sent? <==> (IsOwner(d.members, user.value.id, data.organizationId)
                  && OrganizationById(d, data.organizationId).Some? && !AlreadyInvited(d, data.organizationId, data.email))))
      && (o.reply.Sent? ==> o.db == d.(invites := d.invites + [o.reply.invite]))
  {
  }

  /** The stored invite: the body's fields, the sender as inviter, seven days to live, not accepted. */
  lemma PostInviteRow(d: Db, rate: RateLimit.Outcome, user: Option<AuthUser>, data: InviteData, freshId: string, now: int)
    requires PostInvite(d, rate, user, Parsed(data), freshId, now).reply.Sent?
    ensures var o := PostInvite(d, rate, user, Parsed(data), freshId, now);
      var invite := o.reply.invite;
      && invite.organizationId == data.organizationId && invite.email == data.email && invite.role == data.role
      && invite.invitedBy == user.value.id && invite.expiresAt == now + 7 * 86400000 && !invite.accepted
      && o.emailTo == Some(Trim(data.email))
  {
  }

  /** Inviting the same address to the same organization again is refused and stores nothing. */
  lemma PostInviteTwice(d: Db, rate: RateLimit.Outcome, user: AuthUser, data: InviteData,
                        id1: string, id2: string, now1: int, now2: int)
    requires PostInvite(d, rate, Some(user), Parsed(data), id1, now1).reply.Sent?
    ensures var d1 := PostInvite(d, rate, Some(user), Parsed(data), id1, now1).db;
      PostInvite(d1, rate, Some(user), Parsed(data), id2, now2) == InviteOutcome(Rejected(400, "User already invited"), d1, None)
  {
    var d1 := PostInvite(d, rate, Some(user), Parsed(data), id1, now1).db;
    assert d1.invites[|d.invites|].organizationId == data.organizationId && d1.invites[|d.invites|].email == data.email;
    var found := FindFirst(d1.invites, (i: Invite) => i.organizationId == data.organizationId && i.email == data.email);
    assert found.Some?;
    assert d1.members == d.members && d1.organizations == d.organizations;
  }

  /** `POST` as it runs: early returns, then the insert. */
  method PostInviteRoute(db: Database, rate: RateLimit.Outcome, user: Option<AuthUser>, body: Body<InviteData>,
                         freshId: string, now: int)
    returns (reply: InviteReply, emailTo: Option<string>)
    modifies db
    ensures InviteOutcome(reply, db.tables, emailTo) == PostInvite(old(db.tables), rate, user, body, freshId, now)
  {
    if !rate.success {
      return RateLimited(rate.reset), None;
    }
    if user.None? {
      return Rejected(401, "Unauthorized"), None;
    }
    if body.NotJson? {
      return ServerError, None;
    }
    if body.SchemaRejected? {
      return Rejected(400, "Invalid input"), None;
    }
    var data := body.value;
    var isOwner := IsOwner(db.tables.members, user.value.id, data.organizationId);
    if !isOwner {
      return Rejected(403, "Only organization owners can send invitations"), None;
    }
    var org := OrganizationById(db.tables, data.organizationId);
    if org.None? {
      return Rejected(404, "Organization not found"), None;
    }
    if AlreadyInvited(db.tables, data.organizationId, data.email) {
      return Rejected(400, "User already invited"), None;
    }
    var expiresAt := now;
    expiresAt := expiresAt + InviteLifetimeDays * DayMs;
    var invite := Invite(freshId, data.organizationId, data.email, data.role, user.value.id, expiresAt, false);
    db.tables := db.tables.(invites := db.tables.invites + [invite]);
    emailTo := Some(Trim(invite.email));
    reply := Sent(invite);
  }
}
