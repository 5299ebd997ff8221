/**
 * app/api/change-orders/route.ts: a client asks, through a shared timeline
 * link, for the change a chat proposal describes. The request is checked in a
 * fixed order, one `pending_approval` change order is stored, and the owners
 * of the project's organization are told by email.
 *
 * The email templates' fixed wording is not modelled: an email records what
 * it is sent to and the values it shows. Amounts are the numbers `parseFloat`
 * reads from the stored decimals, before locale formatting.
 */
module ChangeOrders {
  import opened Js
  import opened Tables

  datatype ChangeOrderRequest = ChangeOrderRequest(
    proposalId: string,
    clientEmail: string,
    clientNotes: Option<string>,
    shareToken: string)

  /** The success payload. */
  datatype Submitted = Submitted(id: string, status: string, message: string)

  /** How a delta is shown: the `+` (or nothing) in front of the number shown. */
  datatype Impact = Impact(sign: string, amount: real)

  datatype ChangeOrderEmail = ChangeOrderEmail(
    to: string,
    subject: string,
    projectName: string,
    summary: string,
    costChange: Impact,
    weeksChange: Impact,
    changesHtml: string,
    changesText: string,
    clientNotes: Option<string>,
    clientEmail: string)

  datatype Outcome = Outcome(reply: Reply<Submitted>, db: Db, emails: seq<ChangeOrderEmail>)

  const PendingApproval := "pending_approval"
  const SuccessMessage := "Change order request submitted successfully. The team will review your request shortly."

  // ---------------------------------------------------------------------------
  // what the email shows (lines 100-109 and 125-131)

  /** The cost line: `+` for an increase and the absolute amount, so a decrease shows no sign at all. */
  function CostImpact(deltaCost: real): (r: Impact)
    ensures r.sign == "+" <==> deltaCost > 0.0
    ensures r.sign == "" <==> deltaCost <= 0.0
    ensures r.amount >= 0.0 && (r.amount == deltaCost || r.amount == -deltaCost)
  {
    Impact(if deltaCost > 0.0 then "+" else "", Abs(deltaCost))
  }

  /** The weeks line: `+` for an increase, and the number with its own sign. */
  function WeeksImpact(deltaWeeks: real): (r: Impact)
    ensures r.sign == "+" <==> deltaWeeks > 0.0
    ensures r.amount == deltaWeeks
  {
    Impact(if deltaWeeks > 0.0 then "+" else "", deltaWeeks)
  }

  /** A saving and an extra cost of the same size read alike but for the `+`. */
  lemma CostSignLost(x: real)
    requires x > 0.0
    ensures CostImpact(-x) == Impact("", x) && CostImpact(x) == Impact("+", x)
  {
  }

  /** The list items of the HTML body, one per change in order. */
  function HtmlItems(cs: seq<string>): (r: seq<string>)
    ensures |r| == |cs| && forall i :: 0 <= i < |cs| ==> r[i] == "<li>" + cs[i] + "</li>"
  {
    seq(|cs|, i requires 0 <= i < |cs| => "<li>" + cs[i] + "</li>")
  }

  /** The lines of the text body, `- change` each. */
  function TextLines(cs: seq<string>): (r: seq<string>)
    ensures |r| == |cs| && forall i :: 0 <= i < |cs| ==> r[i] == "- " + cs[i]
  {
    seq(|cs|, i requires 0 <= i < |cs| => "- " + cs[i])
  }

  /** The change list of the HTML body; nothing without a change list. */
  function ChangesHtml(changes: Option<seq<string>>): string {
    if changes.None? then "" else Join(HtmlItems(changes.value), "")
  }

  /** The change list of the text body, its lines separated by newlines. */
  function ChangesText(changes: Option<seq<string>>): string {
    if changes.None? then "" else Join(TextLines(changes.value), "\n")
  }

  /** One more change adds exactly its own item at the end. */
  lemma ChangesAppend(cs: seq<string>, c: string)
    ensures ChangesHtml(Some(cs + [c])) == ChangesHtml(Some(cs)) + "<li>" + c + "</li>"
    ensures cs != [] ==> ChangesText(Some(cs + [c])) == ChangesText(Some(cs)) + "\n- " + c
  {
    HtmlAppend(cs, c);
    if cs != [] {
      TextAppend(cs, c);
    }
  }

  lemma HtmlAppend(cs: seq<string>, c: string)
    ensures Join(HtmlItems(cs + [c]), "") == Join(HtmlItems(cs), "") + "<li>" + c + "</li>"
  {
    var item := "<li>" + c + "</li>";
    assert HtmlItems(cs + [c]) == HtmlItems(cs) + [item];
    JoinSnoc(HtmlItems(cs), item, "");
    AppendAssoc(Join(HtmlItems(cs), ""), "", "<li>", c, "</li>");
  }

  lemma TextAppend(cs: seq<string>, c: string)
    requires cs != []
    ensures Join(TextLines(cs + [c]), "\n") == Join(TextLines(cs), "\n") + "\n- " + c
  {
    var line := "- " + c;
    assert TextLines(cs + [c]) == TextLines(cs) + [line];
    JoinSnoc(TextLines(cs), line, "\n");
    AppendAssoc(Join(TextLines(cs), "\n"), "\n", "- ", c, "");
    assert "\n" + "- " == "\n- ";
    assert c + "" == c;
  }

  lemma AppendAssoc(x: string, sep: string, a: string, b: string, d: string)
    ensures x + sep + (a + b + d) == x + (sep + a) + b + d
  {
  }

  lemma {:induction false} JoinSnoc(parts: seq<string>, p: string, sep: string)
    ensures parts != [] ==> Join(parts + [p], sep) == Join(parts, sep) + sep + p
    ensures parts == [] ==> Join(parts + [p], sep) == p
    decreases |parts|
  {
    if |parts| == 1 {
      assert parts + [p] == [parts[0]] + [p];
      JoinCons(parts[0], [p], sep);
    } else if |parts| > 1 {
      assert (parts + [p])[1..] == parts[1..] + [p];
      JoinSnoc(parts[1..], p, sep);
      JoinCons(parts[0], parts[1..] + [p], sep);
      JoinCons(parts[0], parts[1..], sep);
    }
  }

  lemma ChangesAbsent()
    ensures ChangesHtml(None) == "" && ChangesText(None) == ""
    ensures ChangesHtml(Some([])) == "" && ChangesText(Some([])) == ""
  {
  }

  // ---------------------------------------------------------------------------
  // who is told

  /** The users with that id (the inner join's side of one membership). */
  function UsersWithId(users: seq<User>, userId: string): (r: seq<User>)
    ensures forall u :: u in r <==> u in users && u.id == userId
  {
    if users == [] then []
    else UsersWithId(users[..|users| - 1], userId) + (if users[|users| - 1].id == userId then [users[|users| - 1]] else [])
  }

  /** The owners of an organization with their user rows: the join of lines 76-88. */
  function OwnerContacts(members: seq<Membership>, users: seq<User>, organizationId: string): seq<User> {
    if members == [] then []
    else
      var m := members[|members| - 1];
      OwnerContacts(members[..|members| - 1], users, organizationId)
        + (if m.organizationId == organizationId && m.role == Owner then UsersWithId(users, m.userId) else [])
  }

  /** Every contact is the user of an owner membership of that organization. */
  lemma {:induction false} OwnerContactsAreOwners(members: seq<Membership>, users: seq<User>, organizationId: string)
    ensures forall u :: u in OwnerContacts(members, users, organizationId) ==>
      u in users && exists m :: m in members && m.organizationId == organizationId && m.role == Owner && m.userId == u.id
    decreases |members|
  {
    if members != [] {
      var m := members[|members| - 1];
      var rest := members[..|members| - 1];
      OwnerContactsAreOwners(rest, users, organizationId);
      forall u | u in OwnerContacts(members, users, organizationId)
        ensures u in users && exists m' :: m' in members && m'.organizationId == organizationId && m'.role == Owner && m'.userId == u.id
      {
        if u in OwnerContacts(rest, users, organizationId) {
          var m' :| m' in rest && m'.organizationId == organizationId && m'.role == Owner && m'.userId == u.id;
          assert m' in members;
        } else {
          assert m in members;
        }
      }
    }
  }

  function NotificationFor(to: string, project: Project, proposal: Proposal, req: ChangeOrderRequest): ChangeOrderEmail {
    ChangeOrderEmail(
      to,
      "New Change Order Request: " + project.name,
      project.name,
      proposal.summary,
      CostImpact(proposal.deltaCost),
      WeeksImpact(proposal.deltaWeeks),
      ChangesHtml(proposal.changes),
      ChangesText(proposal.changes),
      NotesOrNull(req.clientNotes),
      req.clientEmail)
  }

  /** One email per contact that has an email address, in order. */
  function Notifications(owners: seq<User>, project: Project, proposal: Proposal, req: ChangeOrderRequest): seq<ChangeOrderEmail> {
    if owners == [] then []
    else
      var o := owners[|owners| - 1];
      Notifications(owners[..|owners| - 1], project, proposal, req)
        + (if o.email != "" then [NotificationFor(o.email, project, proposal, req)] else [])
  }

  /** Each email goes to a contact's non-empty address, with the project's subject. */
  lemma {:induction false} NotificationsTargets(owners: seq<User>, project: Project, proposal: Proposal, req: ChangeOrderRequest)
    ensures forall e :: e in Notifications(owners, project, proposal, req) ==>
      e.to != "" && e.subject == "New Change Order Request: " + project.name
      && exists o :: o in owners && o.email == e.to
    decreases |owners|
  {
    if owners != [] {
      var rest := owners[..|owners| - 1];
      NotificationsTargets(rest, project, proposal, req);
      forall e | e in Notifications(owners, project, proposal, req)
        ensures exists o :: o in owners && o.email == e.to
      {
        if e in Notifications(rest, project, proposal, req) {
          var o :| o in rest && o.email == e.to;
          assert o in owners;
        } else {
          assert owners[|owners| - 1] in owners;
        }
      }
    }
  }

  /** One email per contact with an address. */
  function WithEmail(owners: seq<User>): nat {
    if owners == [] then 0 else WithEmail(owners[..|owners| - 1]) + (if owners[|owners| - 1].email != "" then 1 else 0)
  }

  lemma {:induction false} NotificationsCount(owners: seq<User>, project: Project, proposal: Proposal, req: ChangeOrderRequest)
    ensures |Notifications(owners, project, proposal, req)| == WithEmail(owners)
    decreases |owners|
  {
    if owners != [] {
      NotificationsCount(owners[..|owners| - 1], project, proposal, req);
    }
  }

  // ---------------------------------------------------------------------------
  // the route

  /** `clientNotes || null`. */
  function NotesOrNull(notes: Option<string>): (r: Option<string>)
    ensures r.None? <==> notes.None? || notes.value == ""
    ensures r.Some? ==> r == notes
  {
    if notes.Some? && notes.value != "" then notes else None
  }

  function ProposalIndex(d: Db, proposalId: string): Option<nat> {
    FindFirst(d.proposals, (p: Proposal) => p.id == proposalId)
  }

  function SessionIndex(d: Db, sessionId: string): Option<nat> {
    FindFirst(d.chatSessions, (s: ChatSession) => s.id == sessionId)
  }

  function ProjectIndex(d: Db, projectId: string): Option<nat> {
    FindFirst(d.projects, (p: Project) => p.id == projectId)
  }

  predicate AlreadyOrdered(d: Db, proposalId: string) {
    FindFirst(d.changeOrders, (c: ChangeOrder) => c.proposalId == proposalId).Some?
  }

  /** The emails once the change order is stored: none when the project row is missing. */
  function EmailsFor(d: Db, projectId: string, proposal: Proposal, req: ChangeOrderRequest): seq<ChangeOrderEmail> {
    var pj := ProjectIndex(d, projectId);
    if pj.None? then []
    else
      var project := d.projects[pj.value];
      Notifications(OwnerContacts(d.members, d.users, project.organizationId), project, proposal, req)
  }

  /** What `POST` does, given the body, the tables and the id the database gives the new row. */
  function Post(d: Db, body: Body<ChangeOrderRequest>, freshId: string): Outcome {
    match body
    case NotJson => Outcome(Failure(500, "Failed to create change order"), d, [])
    case SchemaRejected => Outcome(Failure(400, "Invalid request data"), d, [])
    case Parsed(req) =>
      var pi := ProposalIndex(d, req.proposalId);
      if pi.None? then Outcome(Failure(404, "Proposal not found"), d, [])
      else
        var proposal := d.proposals[pi.value];
        var si := SessionIndex(d, proposal.sessionId);
        if si.None? || d.chatSessions[si.value].shareToken != req.shareToken then
          Outcome(Failure(403, "Invalid access token"), d, [])
        else if AlreadyOrdered(d, req.proposalId) then
          Outcome(Failure(400, "A change order for this proposal already exists"), d, [])
        else
          var session := d.chatSessions[si.value];
          var row := ChangeOrder(freshId, session.projectId, req.proposalId, req.clientEmail,
                                 NotesOrNull(req.clientNotes), PendingApproval);
          var d' := d.(changeOrders := d.changeOrders + [row]);
          Outcome(Success(200, Submitted(freshId, PendingApproval, SuccessMessage)), d',
                  EmailsFor(d', session.projectId, proposal, req))
  }

  /** The request passes the proposal and token checks. */
  predicate Authorized(d: Db, req: ChangeOrderRequest) {
    var pi := ProposalIndex(d, req.proposalId);
    pi.Some? &&
    var si := SessionIndex(d, d.proposals[pi.value].sessionId);
    si.Some? && d.chatSessions[si.value].shareToken == req.shareToken
  }

  /**
   * The checks run in order, each answering with its own status, and a
   * rejected request stores nothing and sends nothing. A request that passes
   * them all stores exactly one row.
   */
  lemma PostCheckOrder(d: Db, body: Body<ChangeOrderRequest>, freshId: string)
    ensures var o := Post(d, body, freshId);
      && (o.reply.Failure? ==> o.db == d && o.emails == [])
      && (body.NotJson? ==> o.reply.status == 500)
      && (body.SchemaRejected? ==> o.reply.status == 400)
      && (body.Parsed? && ProposalIndex(d, body.value.proposalId).None? ==> o.reply == Failure(404, "Proposal not found"))
      && (body.Parsed? && ProposalIndex(d, body.value.proposalId).Some? && !Authorized(d, body.value) ==>
            o.reply == Failure(403, "Invalid access token"))
      && (body.Parsed? && Authorized(d, body.value) && AlreadyOrdered(d, body.value.proposalId) ==>
            o.reply.Failure? && o.reply.status == 400)
      && (o.reply.Success? <==> body.Parsed? && Authorized(d, body.value) && !AlreadyOrdered(d, body.value.proposalId))
      && (o.reply.Success? ==> (|o.db.changeOrders| == |d.changeOrders| + 1
            && o.db == d.(changeOrders := d.changeOrders + [o.db.changeOrders[|d.changeOrders|]])))
  {
  }

  /** The stored row: the session's project, the request's proposal and email, the notes or null, pending approval. */
  lemma PostStoredRow(d: Db, req: ChangeOrderRequest, freshId: string)
    requires Post(d, Parsed(req), freshId).reply.Success?
    ensures var o := Post(d, Parsed(req), freshId);
      var row := o.db.changeOrders[|d.changeOrders|];
      var proposal := d.proposals[ProposalIndex(d, req.proposalId).value];
      && row.projectId == d.chatSessions[SessionIndex(d, proposal.sessionId).value].projectId
      && row.proposalId == req.proposalId && row.clientEmail == req.clientEmail
      && row.clientNotes == NotesOrNull(req.clientNotes) && row.status == PendingApproval
      && o.reply.payload == Submitted(freshId, PendingApproval, SuccessMessage)
  {
  }

  /** Sending the same request again is refused with 400 and stores nothing. */
  lemma PostTwiceRejected(d: Db, req: ChangeOrderRequest, id1: string, id2: string)
    requires Post(d, Parsed(req), id1).reply.Success?
    ensures var d1 := Post(d, Parsed(req), id1).db;
      Post(d1, Parsed(req), id2) == Outcome(Failure(400, "A change order for this proposal already exists"), d1, [])
  {
    var d1 := Post(d, Parsed(req), id1).db;
    var k := |d.changeOrders|;
    assert d1.changeOrders[k].proposalId == req.proposalId;
    var found := FindFirst(d1.changeOrders, (c: ChangeOrder) => c.proposalId == req.proposalId);
    assert found.Some?;
    assert d1.proposals == d.proposals && d1.chatSessions == d.chatSessions;
  }

  /**
   * The emails go only to users holding an owner membership of the project's
   * organization, to a non-empty address and with the project in the subject,
   * one per such user that has an address; none when the project is missing.
   */
  lemma PostEmails(d: Db, req: ChangeOrderRequest, freshId: string)
    requires Post(d, Parsed(req), freshId).reply.Success?
    ensures var o := Post(d, Parsed(req), freshId);
      var proposal := d.proposals[ProposalIndex(d, req.proposalId).value];
      var projectId := d.chatSessions[SessionIndex(d, proposal.sessionId).value].projectId;
      var pj := ProjectIndex(d, projectId);
      && (pj.None? ==> o.emails == [])
      && (pj.Some? ==>
            var project := d.projects[pj.value];
            |o.emails| == WithEmail(OwnerContacts(d.members, d.users, project.organizationId))
            && forall e :: e in o.emails ==>
                 e.to != "" && e.subject == "New Change Order Request: " + project.name
                 && exists u, m :: u in d.users && m in d.members && u.email == e.to && m.userId == u.id
                      && m.organizationId == project.organizationId && m.role == Owner)
  {
    var o := Post(d, Parsed(req), freshId);
    var proposal := d.proposals[ProposalIndex(d, req.proposalId).value];
    var projectId := d.chatSessions[SessionIndex(d, proposal.sessionId).value].projectId;
    var d' := o.db;
    assert d'.projects == d.projects && d'.members == d.members && d'.users == d.users;
    var pj := ProjectIndex(d, projectId);
    if pj.Some? {
      var project := d.projects[pj.value];
      var owners := OwnerContacts(d.members, d.users, project.organizationId);
      NotificationsCount(owners, project, proposal, req);
      NotificationsTargets(owners, project, proposal, req);
      OwnerContactsAreOwners(d.members, d.users, project.organizationId);
    }
  }

  /** `POST`: the checks with early returns, one insert, then the loop over the owners. */
  method PostChangeOrder(db: Database, body: Body<ChangeOrderRequest>, freshId: string)
    returns (reply: Reply<Submitted>, emails: seq<ChangeOrderEmail>)
    modifies db
    ensures Outcome(reply, db.tables, emails) == Post(old(db.tables), body, freshId)
  {
    emails := [];
    if body.NotJson? {
      return Failure(500, "Failed to create change order"), [];
    }
    if body.SchemaRejected? {
      return Failure(400, "Invalid request data"), [];
    }
    var req := body.value;
    var pi := ProposalIndex(db.tables, req.proposalId);
    if pi.None? {
      return Failure(404, "Proposal not found"), [];
    }
    var proposal := db.tables.proposals[pi.value];
    var si := SessionIndex(db.tables, proposal.sessionId);
    if si.None? || db.tables.chatSessions[si.value].shareToken != req.shareToken {
      return Failure(403, "Invalid access token"), [];
    }
    var session := db.tables.chatSessions[si.value];
    if AlreadyOrdered(db.tables, req.proposalId) {
      return Failure(400, "A change order for this proposal already exists"), [];
    }
    var row := ChangeOrder(freshId, session.projectId, req.proposalId, req.clientEmail,
                           NotesOrNull(req.clientNotes), PendingApproval);
    db.tables := db.tables.(changeOrders := db.tables.changeOrders + [row]);
    var pj := ProjectIndex(db.tables, session.projectId);
    if pj.Some? {
      var project := db.tables.projects[pj.value];
      var owners := OwnerContacts(db.tables.members, db.tables.users, project.organizationId);
      for i := 0 to |owners|
        invariant emails == Notifications(owners[..i], project, proposal, req)
      {
        assert owners[..i + 1][..i] == owners[..i];
        if owners[i].email != "" {
          emails := emails + [NotificationFor(owners[i].email, project, proposal, req)];
        }
      }
      assert owners[..|owners|] == owners;
    }
    reply := Success(200, Submitted(freshId, PendingApproval, SuccessMessage));
  }
}
