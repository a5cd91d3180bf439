/** What each request about members and invites does with nothing beside it, written out row by row. */
module MemberEffects {
  import opened Tables
  import opened Permissions
  import opened Members
  import MemberLaws

  /** OWNER stands above ADMIN, ADMIN above HR and FINANCE, which are equals, and these above VIEWER. */
  ghost predicate Above(actor: Role, target: Role) {
    || (actor == OWNER && target != OWNER)
    || (actor == ADMIN && target != OWNER && target != ADMIN)
    || ((actor == HR || actor == FINANCE) && target == VIEWER)
  }

  /** The actor's row is ACTIVE, and its role may invite: OWNER or ADMIN. */
  ghost predicate MayInvite(t: Team, actor: MemberKey) {
    && actor in t.members && t.members[actor].status == Active
    && (t.members[actor].role == OWNER || t.members[actor].role == ADMIN)
  }

  /** The actor is an ACTIVE owner, and the other one of the same employer's members that were not removed. */
  ghost predicate MayManage(t: Team, actor: MemberKey, member: MemberKey) {
    && actor in t.members && t.members[actor] == Member(OWNER, Active)
    && member in t.members && member.employer == actor.employer && t.members[member].status != Removed
  }

  /** Two different active owners of the employer. */
  ghost predicate TwoOwners(t: Team, employer: Id) {
    exists j, k :: j in t.members && k in t.members && j != k && j.employer == employer && k.employer == employer
                   && t.members[j] == Member(OWNER, Active) && t.members[k] == Member(OWNER, Active)
  }

  /** An ACTIVE or SUSPENDED row of the account behind the address. */
  ghost predicate Belongs(t: Team, employer: Id, email: nat) {
    && email in t.users && MemberKey(employer, t.users[email]) in t.members
    && t.members[MemberKey(employer, t.users[email])].status != Removed
  }

  /** An invite is sent if and only if the actor may invite and stands above the role, the address is of no member,
      and id and token are unused. It is pending for 72 hours; older pending ones of the address are revoked, also
      when only id or token refuse the new one. */
  lemma CreateInviteEffect(t: Team, actor: MemberKey, email: nat, role: Role, id: Id, token: nat, found: Id,
                           now: Instant)
    ensures var t' := Serve(t, CreateInvite(actor, email, role, id, token), found, now);
            var allowed := MayInvite(t, actor) && Above(t.members[actor].role, role)
                           && !Belongs(t, actor.employer, email);
            var sent := allowed && id !in t.invites && forall i: Id :: i in t.invites ==> t.invites[i].token != token;
            && t' == t.(invites := t'.invites)
            && (!allowed ==> t' == t)
            && t'.invites.Keys == (if sent then t.invites.Keys + {id} else t.invites.Keys)
            && (sent ==> t'.invites[id] == Invite(actor.employer, email, role, token, PendingInvite,
                                                  now + 72 * 3600000, 0))
            && (allowed ==>
                  forall i: Id :: i in t.invites ==>
                    t'.invites[i]
                    == if t.invites[i].employer == actor.employer && t.invites[i].email == email
                          && t.invites[i].status == PendingInvite
                       then t.invites[i].(status := Revoked) else t.invites[i])
  {
  }

  /** The pending invite of the token; `now` is not after its expiry. */
  ghost predicate IsLive(t: Team, i: Id, token: nat, now: Instant) {
    && i in t.invites && t.invites[i].token == token && t.invites[i].status == PendingInvite
    && now <= t.invites[i].expiresAt
  }

  ghost predicate IsLate(t: Team, i: Id, token: nat, now: Instant) {
    && i in t.invites && t.invites[i].token == token && t.invites[i].status == PendingInvite
    && now > t.invites[i].expiresAt
  }

  /** A preview expires a pending invite past its date and changes nothing else. */
  lemma PreviewInviteEffect(t: Team, token: nat, found: Id, now: Instant)
    ensures Serve(t, PreviewInvite(token), found, now)
         == if IsLate(t, found, token, now)
            then t.(invites := t.invites[found := t.invites[found].(status := ExpiredInvite)]) else t
  {
  }

  /** An invite is accepted if and only if the token finds a pending one that has not expired, the employer is active,
      and its address has an account or the new one's id is fresh. Then the account's row at the employer is ACTIVE in
      exactly the role of the invite, the invite is ACCEPTED, and no other row changes; the address has an account.
      A late invite expires, and nothing else ever changes. */
  lemma AcceptInviteEffect(t: Team, token: nat, newUser: Id, employerActive: bool, found: Id, now: Instant)
    ensures var t' := Serve(t, AcceptInvite(token, newUser, employerActive), found, now);
            var unknown := (forall e :: e in t.users ==> t.users[e] != newUser)
                           && (forall k :: k in t.members ==> k.user != newUser);
            if IsLate(t, found, token, now) then
              t' == t.(invites := t.invites[found := t.invites[found].(status := ExpiredInvite)])
            else if IsLive(t, found, token, now) && employerActive
                    && (t.invites[found].email in t.users || unknown) then
              var invite := t.invites[found];
              var user := if invite.email in t.users then t.users[invite.email] else newUser;
              && t'.members == t.members[MemberKey(invite.employer, user) := Member(invite.role, Active)]
              && t'.invites == t.invites[found := invite.(status := Accepted)]
              && t'.users == t.users[invite.email := user]
            else t' == t
  {
    if found in t.invites && t.invites[found].email in t.users {
      var email := t.invites[found].email;
      assert t.users[email := t.users[email]] == t.users;
    }
  }

  /** A pending invite of the actor's employer, sent again fewer than three times, gets the unused token and another 72
      hours; otherwise nothing changes. */
  lemma ResendInviteEffect(t: Team, actor: MemberKey, id: Id, token: nat, found: Id, now: Instant)
    ensures Serve(t, ResendInvite(actor, id, token), found, now)
         == if MayInvite(t, actor) && id in t.invites && t.invites[id].employer == actor.employer
               && t.invites[id].status == PendingInvite && t.invites[id].resent < 3
               && (forall i: Id :: i in t.invites ==> t.invites[i].token != token)
            then
              var again := t.invites[id].(token := token, expiresAt := now + 72 * 3600000,
                                          resent := t.invites[id].resent + 1);
              t.(invites := t.invites[id := again])
            else t
  {
  }

  /** A pending invite of the actor's employer is revoked; otherwise nothing changes. */
  lemma RevokeInviteEffect(t: Team, actor: MemberKey, id: Id, found: Id, now: Instant)
    ensures Serve(t, RevokeInvite(actor, id), found, now)
         == if MayInvite(t, actor) && id in t.invites && t.invites[id].employer == actor.employer
               && t.invites[id].status == PendingInvite
            then t.(invites := t.invites[id := t.invites[id].(status := Revoked)]) else t
  {
  }

  /** Only an active owner changes roles, to a role below owner, and an owner's only while there are two active ones. */
  lemma UpdateMemberRoleEffect(t: Team, actor: MemberKey, member: MemberKey, role: Role, found: Id, now: Instant)
    ensures Serve(t, UpdateMemberRole(actor, member, role), found, now)
         == if MayManage(t, actor, member) && role != OWNER
               && (t.members[member].role == OWNER ==> TwoOwners(t, actor.employer))
            then t.(members := t.members[member := t.members[member].(role := role)]) else t
  {
    CountsOwners(t, actor.employer);
    hide TwoOwners, ActiveOwners;
  }

  /** Only an active owner suspends, and never itself. */
  lemma SuspendMemberEffect(t: Team, actor: MemberKey, member: MemberKey, found: Id, now: Instant)
    ensures Serve(t, SuspendMember(actor, member), found, now)
         == if MayManage(t, actor, member) && member.user != actor.user
            then t.(members := t.members[member := t.members[member].(status := Suspended)]) else t
  {
  }

  /** Only an active owner removes, never itself, and an owner only while there are two active ones. */
  lemma RemoveMemberEffect(t: Team, actor: MemberKey, member: MemberKey, found: Id, now: Instant)
    ensures Serve(t, RemoveMember(actor, member), found, now)
         == if MayManage(t, actor, member) && member.user != actor.user
               && (t.members[member].role == OWNER ==> TwoOwners(t, actor.employer))
            then t.(members := t.members[member := t.members[member].(status := Removed)]) else t
  {
    CountsOwners(t, actor.employer);
    hide TwoOwners, ActiveOwners;
  }

  lemma CountsOwners(t: Team, employer: Id)
    ensures |ActiveOwners(t, employer)| > 1 <==> TwoOwners(t, employer)
  {
    var owners := ActiveOwners(t, employer);
    if |owners| > 1 {
      var j :| j in owners;
      var k := MemberLaws.AnotherOwner(t, employer, j);
    } else if TwoOwners(t, employer) {
      var j, k :| j in t.members && k in t.members && j != k && j.employer == employer && k.employer == employer
                  && t.members[j] == Member(OWNER, Active) && t.members[k] == Member(OWNER, Active);
      MemberLaws.SubsetSize({j, k}, owners);
    }
  }
}
