/**
 * components/settings/TeamSettings.tsx: the team page's state. It holds the
 * member and invite lists, the invite dialog and the toasts it raises. Each
 * handler is given the outcome of its request; the requests themselves are
 * answered by the routes.
 */
module TeamSettings {
  import opened Js
  import opened Seqs
  import opened Tables
  import UseToast

  datatype MemberUser = MemberUser(id: string, name: string, email: string)

  datatype TeamMember = TeamMember(id: string, userId: string, role: string, user: MemberUser)

  datatype PendingInvite = PendingInvite(id: string, email: string, role: string, createdAt: string, expiresAt: string)

  /** The JSON body of a refused request, as far as the page reads it. */
  datatype ErrorBody = ErrorBody(error: Option<string>, message: Option<string>)

  /** How a request ended: an ok response with its body, a refusal with its body, or a thrown error. */
  datatype Response<T> = Ok(value: T) | Refused(body: ErrorBody) | Thrown(message: string)

  // ---------------------------------------------------------------------------
  // initials

  /**
   * The first character of each part; an empty part has none (`n[0]` is
   * `undefined`, which `join` writes as nothing).
   */
  function Firsts(parts: seq<string>): (r: string)
    ensures |r| <= |parts|
  {
    if parts == [] then "" else (if parts[0] == "" then "" else [parts[0][0]]) + Firsts(parts[1..])
  }

  /** `getInitials`: at most two upper-cased first letters of the space-separated parts. */
  function Initials(name: string): (r: string)
    ensures |r| <= 2
  {
    var all := ToUpper(Firsts(Split(name, ' ')));
    if |all| <= 2 then all else all[..2]
  }

  /** Two words give their two first letters, upper-cased; extra spaces in between add nothing. */
  lemma InitialsOfTwoWords(first: string, last: string, gap: nat)
    requires first != "" && last != "" && ' ' !in first && ' ' !in last
    ensures Initials(first + seq(gap + 1, _ => ' ') + last) == [UpperChar(first[0]), UpperChar(last[0])]
  {
    var spaces := seq(gap + 1, _ => ' ');
    assert first + spaces + last == first + [' '] + (spaces[1..] + last);
    SplitCons(first, ' ', spaces[1..] + last);
    var rest := Split(spaces[1..] + last, ' ');
    assert spaces[1..] == seq(gap, _ => ' ');
    EmptyPartsThenWord(gap, last);
    assert Split(first + spaces + last, ' ') == [first] + rest;
    assert ([first] + rest)[1..] == rest;
    assert Firsts([first] + rest) == [first[0]] + Firsts(rest);
    assert Firsts(Split(first + spaces + last, ' ')) == [first[0], last[0]];
  }

  /** `gap` spaces then a word split into `gap` empty parts and the word, which contribute just its first letter. */
  lemma {:induction false} EmptyPartsThenWord(gap: nat, word: string)
    requires word != "" && ' ' !in word
    ensures Firsts(Split(seq(gap, _ => ' ') + word, ' ')) == [word[0]]
  {
    if gap == 0 {
      assert seq(gap, _ => ' ') + word == word;
      SplitNone(word, ' ');
    } else {
      var rest := seq(gap - 1, _ => ' ');
      assert seq(gap, _ => ' ') + word == [] + [' '] + (rest + word);
      SplitCons([], ' ', rest + word);
      EmptyPartsThenWord(gap - 1, word);
    }
  }

  /** A longer name still gives two letters: those of its first two words. */
  lemma InitialsKeepTwo(a: string, b: string, c: string)
    requires a != "" && b != "" && c != "" && ' ' !in a && ' ' !in b && ' ' !in c
    ensures Initials(a + " " + b + " " + c) == [UpperChar(a[0]), UpperChar(b[0])]
  {
    assert a + " " + b + " " + c == a + [' '] + (b + [' '] + c);
    SplitCons(a, ' ', b + [' '] + c);
    SplitCons(b, ' ', c);
    SplitNone(c, ' ');
    assert Split(a + " " + b + " " + c, ' ') == [a, b, c];
    assert [a, b, c][1..] == [b, c] && [b, c][1..] == [c] && [c][1..] == [];
    assert Firsts([c]) == [c[0]] + Firsts([]);
    assert Firsts([b, c]) == [b[0]] + Firsts([c]);
    assert Firsts([a, b, c]) == [a[0]] + Firsts([b, c]) == [a[0], b[0], c[0]];
  }

  // ---------------------------------------------------------------------------
  // list updates

  /** The role change applied locally: the member with that id takes the new role, nothing else moves. */
  function WithRole(members: seq<TeamMember>, memberId: string, role: string): (r: seq<TeamMember>)
    ensures |r| == |members|
    ensures forall i :: 0 <= i < |members| ==>
      r[i] == (if members[i].id == memberId then members[i].(role := role) else members[i])
  {
    seq(|members|, i requires 0 <= i < |members| =>
      if members[i].id == memberId then members[i].(role := role) else members[i])
  }

  function WithoutMember(members: seq<TeamMember>, memberId: string): seq<TeamMember> {
    Filter(members, (m: TeamMember) => m.id != memberId)
  }

  function WithoutInvite(invites: seq<PendingInvite>, inviteId: string): seq<PendingInvite> {
    Filter(invites, (i: PendingInvite) => i.id != inviteId)
  }

  /**
   * Removal takes out exactly the entries with that id, keeps the rest in
   * order, and is a no-op for an id that is not there or already removed.
   */
  lemma RemovalIsExact(members: seq<TeamMember>, memberId: string, before: seq<TeamMember>, after: seq<TeamMember>)
    requires members == before + after
    ensures forall m :: m in WithoutMember(members, memberId) <==> m in members && m.id != memberId
    ensures WithoutMember(members, memberId) == WithoutMember(before, memberId) + WithoutMember(after, memberId)
    ensures WithoutMember(WithoutMember(members, memberId), memberId) == WithoutMember(members, memberId)
    ensures (forall m :: m in members ==> m.id != memberId) ==> WithoutMember(members, memberId) == members
  {
    var keep := (m: TeamMember) => m.id != memberId;
    FilterAppend(before, after, keep);
    FilterTwice(members, keep);
    if forall m :: m in members ==> m.id != memberId {
      FilterKeepsAll(members, keep);
    }
  }

  /** Two role changes of one member are one change to the second role. */
  lemma WithRoleTwice(members: seq<TeamMember>, memberId: string, r1: string, r2: string)
    ensures WithRole(WithRole(members, memberId, r1), memberId, r2) == WithRole(members, memberId, r2)
  {
  }

  // ---------------------------------------------------------------------------
  // toasts

  function Note(title: string, description: string): UseToast.ToastProps {
    UseToast.ToastProps(Some(title), Some(description), None)
  }

  function ErrorNote(description: string): UseToast.ToastProps {
    UseToast.ToastProps(Some("Error"), Some(description), Some(UseToast.Destructive))
  }

  /**
   * The description of the toast after a refused invite, as written: the
   * page reads `message` from the body, and falls back to a fixed text.
   */
  function InviteRefusalTextAsWritten(body: ErrorBody): (r: string)
    ensures r != ""
  {
    if body.message.Some? && body.message.value != "" then body.message.value else "Failed to send invite"
  }

  /**
   * The routes reply with an `error` field and no `message`, so the reason the
   * invite route gives (here: already invited) never reaches the user.
   */
  lemma InviteRefusalLosesReason()
    ensures InviteRefusalTextAsWritten(ErrorBody(Some("User already invited"), None)) == "Failed to send invite"
  {
  }

  /** The refusal text reading the field the routes fill. */
  function InviteRefusalText(body: ErrorBody): (r: string)
    ensures r != ""
    ensures body.error.Some? && body.error.value != "" ==> r == body.error.value
  {
    if body.error.Some? && body.error.value != "" then body.error.value
    else InviteRefusalTextAsWritten(body)
  }

  /** With the field read, the route's reason is what the user sees. */
  lemma InviteRefusalKeepsReason(reason: string)
    requires reason != ""
    ensures InviteRefusalText(ErrorBody(Some(reason), None)) == reason
  {
  }

  /** `error.message || "Failed to send invitation. Please try again."` for a thrown error. */
  function ThrownText(message: string): string {
    if message != "" then message else "Failed to send invitation. Please try again."
  }

  // ---------------------------------------------------------------------------
  // the page

  class TeamPage {
    var isLoading: bool
    var members: seq<TeamMember>
    var invites: seq<PendingInvite>
    var isInviteDialogOpen: bool
    var inviteEmail: string
    var inviteRole: Role
    var isSending: bool
    /** Every toast raised, in order. */
    var toasts: seq<UseToast.ToastProps>

    constructor()
      ensures isLoading && members == [] && invites == [] && !isInviteDialogOpen
      ensures inviteEmail == "" && inviteRole == Member && !isSending && toasts == []
    {
      isLoading := true;
      members := [];
      invites := [];
      isInviteDialogOpen := false;
      inviteEmail := "";
      inviteRole := Member;
      isSending := false;
      toasts := [];
    }

    /** `fetchTeam`: each list is replaced when its request was ok, and loading ends either way. */
    method FetchTeam(membersResponse: Option<seq<TeamMember>>, invitesResponse: Option<seq<PendingInvite>>)
      modifies this
      ensures !isLoading
      ensures members == (if membersResponse.Some? then membersResponse.value else old(members))
      ensures invites == (if invitesResponse.Some? then invitesResponse.value else old(invites))
      ensures unchanged(this`isInviteDialogOpen) && unchanged(this`inviteEmail) && unchanged(this`inviteRole)
      ensures unchanged(this`isSending) && unchanged(this`toasts)
    {
      if membersResponse.Some? {
        members := membersResponse.value;
      }
      if invitesResponse.Some? {
        invites := invitesResponse.value;
      }
      isLoading := false;
    }

    /**
     * `handleSendInvite`: on success the invite goes to the end of the list,
     * a toast names the address, and the dialog closes with its fields reset;
     * on failure only an error toast is raised. A refusal's toast is the
     * text as written, which reads the body's `message`.
     */
    method SendInvite(response: Response<PendingInvite>)
      modifies this
      ensures !isSending && unchanged(this`members) && unchanged(this`isLoading)
      ensures response.Ok? ==>
        && invites == old(invites) + [response.value]
        && toasts == old(toasts) + [Note("Invitation sent", "Invite sent to " + old(inviteEmail))]
        && !isInviteDialogOpen && inviteEmail == "" && inviteRole == Member
      ensures !response.Ok? ==>
        && unchanged(this`invites) && unchanged(this`isInviteDialogOpen)
        && unchanged(this`inviteEmail) && unchanged(this`inviteRole)
        && toasts == old(toasts) + [ErrorNote(
             if response.Refused? then InviteRefusalTextAsWritten(response.body) else ThrownText(response.message))]
    {
      isSending := true;
      match response {
        case Ok(invite) =>
          invites := invites + [invite];
          toasts := toasts + [Note("Invitation sent", "Invite sent to " + inviteEmail)];
          isInviteDialogOpen := false;
          inviteEmail := "";
          inviteRole := Member;
        case Refused(body) =>
          toasts := toasts + [ErrorNote(InviteRefusalTextAsWritten(body))];
        case Thrown(message) =>
          toasts := toasts + [ErrorNote(ThrownText(message))];
      }
      isSending := false;
    }

    /** `handleChangeRole`: the list changes only after an ok response. */
    method ChangeRole(memberId: string, newRole: string, ok: bool)
      modifies this
      ensures members == (if ok then WithRole(old(members), memberId, newRole) else old(members))
      ensures toasts == old(toasts) + [if ok then Note("Role updated", "Member role has been updated successfully.")
                                        else ErrorNote("Failed to update role. Please try again.")]
      ensures unchanged(this`invites) && unchanged(this`isInviteDialogOpen) && unchanged(this`inviteEmail)
      ensures unchanged(this`inviteRole) && unchanged(this`isSending) && unchanged(this`isLoading)
    {
      if !ok {
        toasts := toasts + [ErrorNote("Failed to update role. Please try again.")];
        return;
      }
      members := WithRole(members, memberId, newRole);
      toasts := toasts + [Note("Role updated", "Member role has been updated successfully.")];
    }

    /** `handleRemoveMember`: nothing at all happens unless confirmed; the list changes only after an ok response. */
    method RemoveMember(memberId: string, confirmed: bool, ok: bool)
      modifies this
      ensures !confirmed ==> unchanged(this)
      ensures confirmed ==>
        && members == (if ok then WithoutMember(old(members), memberId) else old(members))
        && toasts == old(toasts) + [if ok then Note("Member removed", "Member has been removed from the organization.")
                                     else ErrorNote("Failed to remove member. Please try again.")]
      ensures unchanged(this`invites) && unchanged(this`isInviteDialogOpen) && unchanged(this`inviteEmail)
      ensures unchanged(this`inviteRole) && unchanged(this`isSending) && unchanged(this`isLoading)
    {
      if !confirmed {
        return;
      }
      if !ok {
        toasts := toasts + [ErrorNote("Failed to remove member. Please try again.")];
        return;
      }
      members := WithoutMember(members, memberId);
      toasts := toasts + [Note("Member removed", "Member has been removed from the organization.")];
    }

    /** `handleCancelInvite`: the list changes only after an ok response. */
    method CancelInvite(inviteId: string, ok: bool)
      modifies this
      ensures invites == (if ok then WithoutInvite(old(invites), inviteId) else old(invites))
      ensures toasts == old(toasts) + [if ok then Note("Invite cancelled", "The invitation has been cancelled.")
                                        else ErrorNote("Failed to cancel invite. Please try again.")]
      ensures unchanged(this`members) && unchanged(this`isInviteDialogOpen) && unchanged(this`inviteEmail)
      ensures unchanged(this`inviteRole) && unchanged(this`isSending) && unchanged(this`isLoading)
    {
      if !ok {
        toasts := toasts + [ErrorNote("Failed to cancel invite. Please try again.")];
        return;
      }
      invites := WithoutInvite(invites, inviteId);
      toasts := toasts + [Note("Invite cancelled", "The invitation has been cancelled.")];
    }
  }
}
