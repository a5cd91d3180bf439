/** src/employer-members/employer-members.service.ts: who belongs to an employer, and invites. */
module Members {
  import opened Tables
  import opened Permissions

  datatype MemberStatus = Active | Suspended | Removed

  /** A member row is unique for its employer and user. */
  datatype MemberKey = MemberKey(employer: Id, user: Id)

  datatype Member = Member(role: Role, status: MemberStatus)

  datatype InviteStatus = PendingInvite | Accepted | Revoked | ExpiredInvite

  datatype Invite = Invite(employer: Id, email: nat, role: Role, token: nat,
                             status: InviteStatus, expiresAt: Instant, resent: nat)

  /** `users` maps an e-mail address to its account. */
  datatype Team = Team(members: map<MemberKey, Member>, invites: map<Id, Invite>, users: map<nat, Id>)

  const EXPIRY: Instant := 72 * 60 * 60 * 1000
  const MAX_RESEND_COUNT := 3

  datatype Request =
    | CreateInvite(actor: MemberKey, email: nat, role: Role, id: Id, token: nat)
    | PreviewInvite(token: nat)
    | AcceptInvite(token: nat, newUser: Id, employerActive: bool)
    | ResendInvite(actor: MemberKey, id: Id, token: nat)
    | RevokeInvite(actor: MemberKey, id: Id)
    | UpdateMemberRole(actor: MemberKey, member: MemberKey, role: Role)
    | SuspendMember(actor: MemberKey, member: MemberKey)
    | RemoveMember(actor: MemberKey, member: MemberKey)

  /** The actor's row grants the permission: looked up when the request arrives. */
  predicate Authorized(t: Team, actor: MemberKey, permission: Permission) {
    actor in t.members && t.members[actor].status == Active && HasPermission(t.members[actor].role, permission)
  }

  predicate IsMember(t: Team, employer: Id, user: Id) {
    MemberKey(employer, user) in t.members && t.members[MemberKey(employer, user)].status != Removed
  }

  predicate IsMemberByEmail(t: Team, employer: Id, email: nat) {
    email in t.users && IsMember(t, employer, t.users[email])
  }

  predicate TokenUnused(t: Team, token: nat) {
    forall i :: i in t.invites ==> t.invites[i].token != token
  }

  function RevokePending(invites: map<Id, Invite>, employer: Id, email: nat): map<Id, Invite> {
    map i | i in invites ::
      if invites[i].employer == employer && invites[i].email == email && invites[i].status == PendingInvite
      then invites[i].(status := Revoked) else invites[i]
  }

  predicate CreateInviteAllowed(t: Team, actor: MemberKey, email: nat, role: Role) {
    && Authorized(t, actor, MemberInvite) && CanManageRole(t.members[actor].role, role)
    && !IsMemberByEmail(t, actor.employer, email)
  }

  /** Older pending invites are revoked first, and stay revoked when the insert is refused. */
  function CreateInviteStep(t: Team, actor: MemberKey, email: nat, role: Role, id: Id, token: nat, now: Instant): Team {
    if !CreateInviteAllowed(t, actor, email, role) then t
    else
      var revoked := RevokePending(t.invites, actor.employer, email);
      if id in t.invites || !TokenUnused(t, token) then t.(invites := revoked)
      else t.(invites := revoked[id := Invite(actor.employer, email, role, token, PendingInvite, now + EXPIRY, 0)])
  }

  /** The pending invite a raw token belongs to. */
  predicate Finds(t: Team, id: Id, token: nat) {
    id in t.invites && t.invites[id].token == token && t.invites[id].status == PendingInvite
  }

  function Expire(t: Team, id: Id): Team
    requires id in t.invites
  {
    t.(invites := t.invites[id := t.invites[id].(status := ExpiredInvite)])
  }

  function PreviewInviteStep(t: Team, token: nat, found: Id, now: Instant): Team {
    if !Finds(t, found, token) then t
    else if t.invites[found].expiresAt < now then Expire(t, found) else t
  }

  predicate FreshUser(t: Team, user: Id) {
    (forall e :: e in t.users ==> t.users[e] != user) && (forall k :: k in t.members ==> k.user != user)
  }

  function AcceptInviteStep(t: Team, token: nat, found: Id, newUser: Id, employerActive: bool, now: Instant): Team {
    if !Finds(t, found, token) then t
    else
      var invite := t.invites[found];
      if invite.expiresAt < now then Expire(t, found)
      else if !employerActive || (invite.email !in t.users && !FreshUser(t, newUser)) then t
      else
        var users := if invite.email in t.users then t.users else t.users[invite.email := newUser];
        Team(t.members[MemberKey(invite.employer, users[invite.email]) := Member(invite.role, Active)],
             t.invites[found := invite.(status := Accepted)], users)
  }

  function ResendInviteStep(t: Team, actor: MemberKey, id: Id, token: nat, now: Instant): Team {
    if !Authorized(t, actor, MemberInvite) || id !in t.invites || t.invites[id].employer != actor.employer then t
    else if t.invites[id].status != PendingInvite || t.invites[id].resent >= MAX_RESEND_COUNT || !TokenUnused(t, token)
    then t
    else
      var renewed := t.invites[id].(token := token, expiresAt := now + EXPIRY, resent := t.invites[id].resent + 1);
      t.(invites := t.invites[id := renewed])
  }

  function RevokeInviteStep(t: Team, actor: MemberKey, id: Id): Team {
    if !Authorized(t, actor, MemberInvite) || id !in t.invites || t.invites[id].employer != actor.employer then t
    else if t.invites[id].status != PendingInvite then t
    else t.(invites := t.invites[id := t.invites[id].(status := Revoked)])
  }

  /** The member of the actor's employer that a management request is about. */
  predicate Manages(t: Team, actor: MemberKey, member: MemberKey) {
    && Authorized(t, actor, MemberManage)
    && member in t.members && member.employer == actor.employer && t.members[member].status != Removed
  }

  function ActiveOwners(t: Team, employer: Id): set<MemberKey> {
    set k | k in t.members && k.employer == employer && t.members[k] == Member(OWNER, Active)
  }

  predicate UpdateMemberRoleAllowed(t: Team, actor: MemberKey, member: MemberKey, role: Role) {
    && Manages(t, actor, member)
    && (t.members[member].role == OWNER ==> t.members[actor].role == OWNER)
    && CanManageRole(t.members[actor].role, role)
    && (t.members[member].role == OWNER && role != OWNER ==> |ActiveOwners(t, actor.employer)| > 1)
  }

  predicate SuspendMemberAllowed(t: Team, actor: MemberKey, member: MemberKey) {
    && Manages(t, actor, member) && member.user != actor.user
    && (t.members[member].role == OWNER ==> t.members[actor].role == OWNER)
  }

  predicate RemoveMemberAllowed(t: Team, actor: MemberKey, member: MemberKey) {
    && Manages(t, actor, member) && member.user != actor.user
    && (t.members[member].role == OWNER ==> |ActiveOwners(t, actor.employer)| > 1 && t.members[actor].role == OWNER)
  }

  function SetMember(t: Team, member: MemberKey, row: Member): Team {
    t.(members := t.members[member := row])
  }

  /** One request, with nothing beside it. `found` is the row the token of an invite finds. */
  function Serve(t: Team, r: Request, found: Id, now: Instant): Team {
    match r
    case CreateInvite(actor, email, role, id, token) => CreateInviteStep(t, actor, email, role, id, token, now)
    case PreviewInvite(token) => PreviewInviteStep(t, token, found, now)
    case AcceptInvite(token, newUser, employerActive) => AcceptInviteStep(t, token, found, newUser, employerActive, now)
    case ResendInvite(actor, id, token) => ResendInviteStep(t, actor, id, token, now)
    case RevokeInvite(actor, id) => RevokeInviteStep(t, actor, id)
    case UpdateMemberRole(actor, member, role) =>
      if UpdateMemberRoleAllowed(t, actor, member, role) then SetMember(t, member, t.members[member].(role := role))
      else t
    case SuspendMember(actor, member) =>
      if SuspendMemberAllowed(t, actor, member) then SetMember(t, member, t.members[member].(status := Suspended))
      else t
    case RemoveMember(actor, member) =>
      if RemoveMemberAllowed(t, actor, member) then SetMember(t, member, t.members[member].(status := Removed)) else t
  }

  datatype Served = Served(request: Request, found: Id, now: Instant)

  function Serial(t: Team, requests: seq<Served>): Team {
    if requests == [] then t
    else
      var last := requests[|requests| - 1];
      Serve(Serial(t, requests[..|requests| - 1]), last.request, last.found, last.now)
  }
}

/** An employer keeps its owner, and nobody becomes one. */
module MemberLaws {
  import opened Tables
  import opened Permissions
  import opened Members

  // Roles

  /** Managing is strict: nobody manages an equal, an owner, or through a chain anyone they could not manage. */
  lemma ManagingIsStrict(a: Role, b: Role, c: Role)
    ensures !CanManageRole(a, a) && !CanManageRole(a, OWNER)
    ensures CanManageRole(a, b) ==> !CanManageRole(b, a)
    ensures CanManageRole(a, b) && CanManageRole(b, c) ==> CanManageRole(a, c)
    ensures HasPermission(a, MemberManage) <==> a == OWNER
    ensures HasPermission(a, MemberInvite) <==> a in {OWNER, ADMIN}
  {
  }

  // The invariant

  ghost predicate OnePending(invites: map<Id, Invite>) {
    forall i, j ::
      (i in invites && j in invites && invites[i].status == PendingInvite && invites[j].status == PendingInvite
       && invites[i].employer == invites[j].employer && invites[i].email == invites[j].email) ==>
        i == j
  }

  ghost predicate NoOwnerInvited(invites: map<Id, Invite>) {
    forall i :: i in invites ==> invites[i].role != OWNER
  }

  ghost predicate DistinctUsers(users: map<nat, Id>) {
    forall e, f :: e in users && f in users && users[e] == users[f] ==> e == f
  }

  ghost predicate PendingNotMembers(t: Team) {
    forall i :: i in t.invites && t.invites[i].status == PendingInvite ==>
      !IsMemberByEmail(t, t.invites[i].employer, t.invites[i].email)
  }

  ghost predicate Inv(t: Team) {
    OnePending(t.invites) && NoOwnerInvited(t.invites) && DistinctUsers(t.users) && PendingNotMembers(t)
  }

  predicate HasOwner(t: Team, employer: Id) {
    exists k :: k in t.members && k.employer == employer && t.members[k] == Member(OWNER, Active)
  }

  ghost predicate NoNewOwner(t: Team, t': Team) {
    forall k :: k in t'.members && t'.members[k].role == OWNER ==> k in t.members && t.members[k].role == OWNER
  }

  lemma AcceptKeeps(t: Team, token: nat, found: Id, newUser: Id, employerActive: bool, now: Instant)
    requires Inv(t)
    ensures Inv(AcceptInviteStep(t, token, found, newUser, employerActive, now))
  {
    var t' := AcceptInviteStep(t, token, found, newUser, employerActive, now);
    if t'.members != t.members {
      var invite := t.invites[found];
      forall i | i in t'.invites && t'.invites[i].status == PendingInvite
        ensures !IsMemberByEmail(t', t'.invites[i].employer, t'.invites[i].email)
      {
        assert i != found && t.invites[i] == t'.invites[i];
        assert t.invites[i].employer != invite.employer || t.invites[i].email != invite.email;
      }
    }
  }

  lemma RevokingKeeps(t: Team, employer: Id, email: nat)
    requires Inv(t)
    ensures Inv(t.(invites := RevokePending(t.invites, employer, email)))
  {
  }

  lemma InvitingKeeps(t: Team, id: Id, invite: Invite)
    requires Inv(t) && id !in t.invites && invite.role != OWNER && !IsMemberByEmail(t, invite.employer, invite.email)
    ensures Inv(t.(invites := RevokePending(t.invites, invite.employer, invite.email)[id := invite]))
  {
  }

  lemma InviteKeeps(t: Team, r: Request, found: Id, now: Instant)
    requires Inv(t) && (r.CreateInvite? || r.PreviewInvite? || r.ResendInvite? || r.RevokeInvite?)
    ensures Inv(Serve(t, r, found, now)) && Serve(t, r, found, now).members == t.members
  {
    if r.CreateInvite? {
      hide Inv, IsMemberByEmail, Authorized;
      if CreateInviteAllowed(t, r.actor, r.email, r.role) {
        ManagingIsStrict(t.members[r.actor].role, r.role, OWNER);
        RevokingKeeps(t, r.actor.employer, r.email);
        if r.id !in t.invites {
          InvitingKeeps(t, r.id, Invite(r.actor.employer, r.email, r.role, r.token, PendingInvite, now + EXPIRY, 0));
        }
      }
    }
  }

  lemma ManageKeeps(t: Team, member: MemberKey, row: Member)
    requires Inv(t) && IsMember(t, member.employer, member.user)
    ensures Inv(SetMember(t, member, row))
  {
  }

  lemma ServeKeeps(t: Team, r: Request, found: Id, now: Instant)
    requires Inv(t)
    ensures Inv(Serve(t, r, found, now))
  {
    hide Inv, CreateInviteStep, PreviewInviteStep, ResendInviteStep, RevokeInviteStep, AcceptInviteStep;
    match r
    case AcceptInvite(token, newUser, employerActive) => AcceptKeeps(t, token, found, newUser, employerActive, now);
    case UpdateMemberRole(actor, member, role) =>
      if UpdateMemberRoleAllowed(t, actor, member, role) {
        assert MemberKey(member.employer, member.user) == member;
        ManageKeeps(t, member, t.members[member].(role := role));
      }
    case SuspendMember(actor, member) =>
      if SuspendMemberAllowed(t, actor, member) {
        assert MemberKey(member.employer, member.user) == member;
        ManageKeeps(t, member, t.members[member].(status := Suspended));
      }
    case RemoveMember(actor, member) =>
      if RemoveMemberAllowed(t, actor, member) {
        assert MemberKey(member.employer, member.user) == member;
        ManageKeeps(t, member, t.members[member].(status := Removed));
      }
    case _ => InviteKeeps(t, r, found, now);
  }

  // Owners

  lemma AcceptKeepsOwner(t: Team, token: nat, found: Id, newUser: Id, employerActive: bool, now: Instant, employer: Id)
    requires Inv(t)
    ensures var t' := AcceptInviteStep(t, token, found, newUser, employerActive, now);
            (HasOwner(t, employer) ==> HasOwner(t', employer)) && NoNewOwner(t, t')
  {
    var t' := AcceptInviteStep(t, token, found, newUser, employerActive, now);
    if HasOwner(t, employer) {
      var k :| k in t.members && k.employer == employer && t.members[k] == Member(OWNER, Active);
      if Finds(t, found, token) {
        assert IsMember(t, k.employer, k.user) by { assert MemberKey(k.employer, k.user) == k; }
      }
      assert k in t'.members && t'.members[k] == t.members[k];
    }
  }

  /** Two active owners leave one when either is written. */
  lemma AnotherOwner(t: Team, employer: Id, member: MemberKey) returns (k: MemberKey)
    requires |ActiveOwners(t, employer)| > 1
    ensures k != member && k in ActiveOwners(t, employer)
  {
    if ActiveOwners(t, employer) <= {member} {
      SubsetSize(ActiveOwners(t, employer), {member});
      assert false;
    }
    k :| k in ActiveOwners(t, employer) && k != member;
  }

  lemma SubsetSize<T>(s: set<T>, u: set<T>)
    requires s <= u
    ensures |s| <= |u|
  {
    if s != {} {
      var x :| x in s;
      SubsetSize(s - {x}, u - {x});
    }
  }

  lemma ManageKeepsOwner(t: Team, actor: MemberKey, member: MemberKey, row: Member, employer: Id)
    requires Manages(t, actor, member) && row.role == OWNER ==> t.members[member].role == OWNER
    requires Manages(t, actor, member)
    requires member != actor || |ActiveOwners(t, actor.employer)| > 1
    ensures (HasOwner(t, employer) ==> HasOwner(SetMember(t, member, row), employer))
    ensures NoNewOwner(t, SetMember(t, member, row))
  {
    ManagingIsStrict(t.members[actor].role, OWNER, OWNER);
    var t' := SetMember(t, member, row);
    if HasOwner(t, employer) {
      var k :| k in t.members && k.employer == employer && t.members[k] == Member(OWNER, Active);
      if k == member {
        if member == actor {
          k := AnotherOwner(t, employer, member);
        } else {
          k := actor;
        }
      }
      assert k in t'.members && t'.members[k] == Member(OWNER, Active);
    }
  }

  lemma ServeKeepsOwner(t: Team, r: Request, found: Id, now: Instant, employer: Id)
    requires Inv(t)
    ensures var t' := Serve(t, r, found, now);
            (HasOwner(t, employer) ==> HasOwner(t', employer)) && NoNewOwner(t, t')
  {
    hide Inv, HasOwner, NoNewOwner, CreateInviteStep, PreviewInviteStep, ResendInviteStep, RevokeInviteStep,
         AcceptInviteStep;
    match r
    case AcceptInvite(token, newUser, employerActive) =>
      AcceptKeepsOwner(t, token, found, newUser, employerActive, now, employer);
    case UpdateMemberRole(actor, member, role) =>
      if UpdateMemberRoleAllowed(t, actor, member, role) {
        ManagingIsStrict(t.members[actor].role, role, OWNER);
        ManageKeepsOwner(t, actor, member, t.members[member].(role := role), employer);
      } else {
        Unchanged(t, t, employer);
      }
    case SuspendMember(actor, member) =>
      if SuspendMemberAllowed(t, actor, member) {
        ManageKeepsOwner(t, actor, member, t.members[member].(status := Suspended), employer);
      } else {
        Unchanged(t, t, employer);
      }
    case RemoveMember(actor, member) =>
      if RemoveMemberAllowed(t, actor, member) {
        ManageKeepsOwner(t, actor, member, t.members[member].(status := Removed), employer);
      } else {
        Unchanged(t, t, employer);
      }
    case _ =>
      InviteKeeps(t, r, found, now);
      Unchanged(t, Serve(t, r, found, now), employer);
  }

  lemma Unchanged(t: Team, t': Team, employer: Id)
    requires t'.members == t.members
    ensures (HasOwner(t, employer) ==> HasOwner(t', employer)) && NoNewOwner(t, t')
  {
  }

  // The laws

  /** Served one after another, requests leave every employer that had an active owner with one, make nobody an
      owner, and keep at most one pending invite for an e-mail address, never of a current member. */
  lemma {:induction false} OwnersKept(t: Team, requests: seq<Served>, employer: Id)
    requires Inv(t)
    ensures var t' := Serial(t, requests);
            && (HasOwner(t, employer) ==> HasOwner(t', employer))
            && NoNewOwner(t, t')
            && OnePending(t'.invites) && PendingNotMembers(t') && Inv(t')
    decreases |requests|
  {
    hide HasOwner, Serve;
    if requests != [] {
      var init, last := requests[..|requests| - 1], requests[|requests| - 1];
      OwnersKept(t, init, employer);
      ServeKeepsOwner(Serial(t, init), last.request, last.found, last.now, employer);
      ServeKeeps(Serial(t, init), last.request, last.found, last.now);
    }
  }
}
