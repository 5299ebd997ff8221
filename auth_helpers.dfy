/**
 * lib/auth-helpers.ts: a user's membership of an organization, and the owner
 * and member access checks built on it.
 */
module AuthHelpers {
  import opened Js
  import opened Tables

  /** `verifyOrganizationMembership`: the first membership row of that user in that organization. */
  function MembershipOf(members: seq<Membership>, userId: string, organizationId: string): (r: Option<Membership>)
    ensures r.Some? <==> exists m :: m in members && m.userId == userId && m.organizationId == organizationId
    ensures r.Some? ==> r.value in members && r.value.userId == userId && r.value.organizationId == organizationId
  {
    var i := FindFirst(members, (m: Membership) => m.userId == userId && m.organizationId == organizationId);
    if i.Some? then Some(members[i.value]) else None
  }

  /** The row found is the first one that matches. */
  lemma MembershipOfIsFirst(members: seq<Membership>, userId: string, organizationId: string)
    requires MembershipOf(members, userId, organizationId).Some?
    ensures exists k :: (0 <= k < |members| && members[k] == MembershipOf(members, userId, organizationId).value
      && forall j :: 0 <= j < k ==> !(members[j].userId == userId && members[j].organizationId == organizationId))
  {
    var i := FindFirst(members, (m: Membership) => m.userId == userId && m.organizationId == organizationId);
    assert members[i.value] == MembershipOf(members, userId, organizationId).value;
  }

  /** `verifyOwnerAccess`: the membership found has the owner role. */
  predicate IsOwner(members: seq<Membership>, userId: string, organizationId: string) {
    var m := MembershipOf(members, userId, organizationId);
    m.Some? && m.value.role == Owner
  }

  /** `verifyMemberAccess`: there is a membership. */
  predicate IsMember(members: seq<Membership>, userId: string, organizationId: string) {
    MembershipOf(members, userId, organizationId).Some?
  }

  /**
   * Owner access implies member access. Owner access looks only at the first
   * matching row: a user with a member row stored before an owner row in the
   * same organization is not an owner.
   */
  lemma OwnerIsMember(members: seq<Membership>, userId: string, organizationId: string)
    ensures IsOwner(members, userId, organizationId) ==> IsMember(members, userId, organizationId)
    ensures IsMember(members, userId, organizationId) <==>
      exists m :: m in members && m.userId == userId && m.organizationId == organizationId
  {
  }

  /** The order of duplicate rows decides: a member row before an owner row hides it, and not the other way round. */
  lemma FirstRowDecidesOwnership(a: Membership, b: Membership)
    requires a.userId == b.userId && a.organizationId == b.organizationId
    requires a.role == Member && b.role == Owner
    ensures !IsOwner([a, b], a.userId, a.organizationId) && IsOwner([b, a], a.userId, a.organizationId)
  {
  }

  /** With one membership row per user and organization, owner access is exactly having an owner row. */
  lemma IsOwnerIffOwnerRow(members: seq<Membership>, userId: string, organizationId: string)
    requires forall i, j :: 0 <= i < j < |members| ==>
      !(members[i].userId == members[j].userId && members[i].organizationId == members[j].organizationId)
    ensures IsOwner(members, userId, organizationId) <==>
      exists m :: m in members && m.userId == userId && m.organizationId == organizationId && m.role == Owner
  {
    var r := MembershipOf(members, userId, organizationId);
    if exists m :: m in members && m.userId == userId && m.organizationId == organizationId && m.role == Owner {
      var m :| m in members && m.userId == userId && m.organizationId == organizationId && m.role == Owner;
      var i :| 0 <= i < |members| && members[i] == m;
      var j :| 0 <= j < |members| && members[j] == r.value;
      assert i == j;
    }
  }
}
