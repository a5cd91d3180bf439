/** src/employer-members/employer-members.service.ts, statement by statement. */
module EmployerMembersService {
  import opened Tables
  import opened Permissions
  import opened Members

  class EmployerMembersService {
    var members: map<MemberKey, Member>
    var invites: map<Id, Invite>
    var users: map<nat, Id>

    function View(): Team
      reads this
    {
      Team(members, invites, users)
    }

    constructor (team: Team)
      ensures View() == team
    {
      members, invites, users := team.members, team.invites, team.users;
    }

    method CreateInvite(actor: MemberKey, email: nat, role: Role, id: Id, token: nat, now: Instant) returns (ok: bool)
      modifies `invites
      ensures View() == Serve(old(View()), Request.CreateInvite(actor, email, role, id, token), 0, now)
      ensures ok
         <==> CreateInviteAllowed(old(View()), actor, email, role)
              && id !in old(invites) && TokenUnused(old(View()), token)
      ensures ok ==>
                id in invites
                && invites[id] == Invite(actor.employer, email, role, token, PendingInvite, now + EXPIRY, 0)
    {
      if !Authorized(View(), actor, MemberInvite) { return false; }
      if !CanManageRole(members[actor].role, role) { return false; }
      if IsMemberByEmail(View(), actor.employer, email) { return false; }
      var before := View();
      invites := map i | i in invites ::
        if invites[i].employer == actor.employer && invites[i].email == email && invites[i].status == PendingInvite
        then invites[i].(status := Revoked) else invites[i];
      if id in invites || !TokenUnused(before, token) { return false; }
      invites := invites[id := Invite(actor.employer, email, role, token, PendingInvite, now + EXPIRY, 0)];
      return true;
    }

    /** `findUnique` on the token hash, if the row is still pending. */
    method FindPending(token: nat) returns (found: Id, pending: bool)
      ensures pending ==> Finds(View(), found, token)
      ensures !pending ==> forall i :: !Finds(View(), i, token)
    {
      var matching := FindMany(set i | i in invites && invites[i].token == token && invites[i].status == PendingInvite);
      if |matching| == 0 {
        found, pending := 0, false;
        forall i
          ensures !Finds(View(), i, token)
        {
          assert i in invites && invites[i].token == token && invites[i].status == PendingInvite ==> i in matching;
        }
      } else {
        assert matching[0] in matching;
        found, pending := matching[0], true;
      }
    }

    method PreviewInvite(token: nat, now: Instant) returns (ok: bool, found: Id)
      modifies `invites
      ensures View() == Serve(old(View()), Request.PreviewInvite(token), found, now)
      ensures forall i: Id :: Finds(old(View()), i, token) ==> Finds(old(View()), found, token)
      ensures ok <==> Finds(old(View()), found, token) && old(invites)[found].expiresAt >= now
    {
      var pending;
      found, pending := FindPending(token);
      if !pending { return false, found; }
      if invites[found].expiresAt < now {
        invites := invites[found := invites[found].(status := ExpiredInvite)];
        return false, found;
      }
      return true, found;
    }

    method AcceptInvite(token: nat, newUser: Id, employerActive: bool, now: Instant) returns (ok: bool, found: Id)
      modifies this
      ensures View() == Serve(old(View()), Request.AcceptInvite(token, newUser, employerActive), found, now)
      ensures forall i: Id :: Finds(old(View()), i, token) ==> Finds(old(View()), found, token)
      ensures ok
         <==> Finds(old(View()), found, token) && old(invites)[found].expiresAt >= now && employerActive
              && (old(invites)[found].email in old(users) || FreshUser(old(View()), newUser))
      ensures ok ==>
                var invite := old(invites)[found];
                invite.email in users
                && members
                   == old(members)[MemberKey(invite.employer, users[invite.email]) := Member(invite.role, Active)]
                && invites == old(invites)[found := invite.(status := Accepted)]
    {
      var pending;
      found, pending := FindPending(token);
      if !pending { return false, found; }
      var invite := invites[found];
      if invite.expiresAt < now {
        invites := invites[found := invite.(status := ExpiredInvite)];
        return false, found;
      }
      if !employerActive { return false, found; }
      if invite.email !in users {
        if !FreshUser(View(), newUser) { return false, found; }
        users := users[invite.email := newUser];
      }
      members := members[MemberKey(invite.employer, users[invite.email]) := Member(invite.role, Active)];
      invites := invites[found := invite.(status := Accepted)];
      return true, found;
    }

    method ResendInvite(actor: MemberKey, id: Id, token: nat, now: Instant) returns (ok: bool)
      modifies `invites
      ensures View() == Serve(old(View()), Request.ResendInvite(actor, id, token), 0, now)
      ensures ok
         <==> Authorized(old(View()), actor, MemberInvite) && id in old(invites)
              && old(invites)[id].employer == actor.employer && old(invites)[id].status == PendingInvite
              && old(invites)[id].resent < 3 && TokenUnused(old(View()), token)
      ensures ok ==> id in invites && invites[id].resent == old(invites)[id].resent + 1
    {
      if !Authorized(View(), actor, MemberInvite) { return false; }
      if id !in invites || invites[id].employer != actor.employer { return false; }
      if invites[id].status != PendingInvite { return false; }
      if invites[id].resent >= MAX_RESEND_COUNT { return false; }
      if !TokenUnused(View(), token) { return false; }
      invites :=
        invites[id := invites[id].(token := token, expiresAt := now + EXPIRY, resent := invites[id].resent + 1)];
      return true;
    }

    method RevokeInvite(actor: MemberKey, id: Id, now: Instant) returns (ok: bool)
      modifies `invites
      ensures View() == Serve(old(View()), Request.RevokeInvite(actor, id), 0, now)
      ensures ok
         <==> Authorized(old(View()), actor, MemberInvite) && id in old(invites)
              && old(invites)[id].employer == actor.employer && old(invites)[id].status == PendingInvite
      ensures ok ==> id in invites && invites[id].status == Revoked
    {
      if !Authorized(View(), actor, MemberInvite) { return false; }
      if id !in invites || invites[id].employer != actor.employer { return false; }
      if invites[id].status != PendingInvite { return false; }
      invites := invites[id := invites[id].(status := Revoked)];
      return true;
    }

    /** `count` of the active owners. */
    method CountOwners(employer: Id) returns (n: nat)
      ensures n == |ActiveOwners(View(), employer)|
    {
      var owners := FindMany(ActiveOwners(View(), employer));
      n := |owners|;
      ListingSize(owners, ActiveOwners(View(), employer));
    }

    method UpdateMemberRole(actor: MemberKey, member: MemberKey, role: Role, now: Instant) returns (ok: bool)
      modifies `members
      ensures View() == Serve(old(View()), Request.UpdateMemberRole(actor, member, role), 0, now)
      ensures ok <==> UpdateMemberRoleAllowed(old(View()), actor, member, role)
    {
      if !Manages(View(), actor, member) { return false; }
      var row := members[member];
      if row.role == OWNER && members[actor].role != OWNER { return false; }
      if !CanManageRole(members[actor].role, role) { return false; }
      if row.role == OWNER && role != OWNER {
        var ownerCount := CountOwners(actor.employer);
        if ownerCount <= 1 { return false; }
      }
      members := members[member := row.(role := role)];
      return true;
    }

    method SuspendMember(actor: MemberKey, member: MemberKey, now: Instant) returns (ok: bool)
      modifies `members
      ensures View() == Serve(old(View()), Request.SuspendMember(actor, member), 0, now)
      ensures ok <==> SuspendMemberAllowed(old(View()), actor, member)
    {
      if !Manages(View(), actor, member) { return false; }
      if member.user == actor.user { return false; }
      if members[member].role == OWNER && members[actor].role != OWNER { return false; }
      members := members[member := members[member].(status := Suspended)];
      return true;
    }

    method RemoveMember(actor: MemberKey, member: MemberKey, now: Instant) returns (ok: bool)
      modifies `members
      ensures View() == Serve(old(View()), Request.RemoveMember(actor, member), 0, now)
      ensures ok <==> RemoveMemberAllowed(old(View()), actor, member)
    {
      if !Manages(View(), actor, member) { return false; }
      if member.user == actor.user { return false; }
      if members[member].role == OWNER {
        var ownerCount := CountOwners(actor.employer);
        if ownerCount <= 1 { return false; }
        if members[actor].role != OWNER { return false; }
      }
      members := members[member := members[member].(status := Removed)];
      return true;
    }
  }

  lemma {:induction false} ListingSize<T>(rows: seq<T>, matching: set<T>)
    requires IsListing(rows, matching)
    ensures |rows| == |matching|
    decreases |rows|
  {
    if rows != [] {
      var last := rows[|rows| - 1];
      var init := rows[..|rows| - 1];
      assert last in rows;
      assert IsListing(init, matching - {last}) by {
        forall x | x in matching - {last}
          ensures x in init
        {
          assert x in rows;
        }
      }
      ListingSize(init, matching - {last});
    } else {
      assert forall x :: x in matching ==> x in rows;
    }
  }
}
