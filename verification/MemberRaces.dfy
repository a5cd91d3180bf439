/** Team management and invites when requests interleave: what each write needs to be still true, exactly. */
module MemberRaces {
  import opened Wrappers
  import opened Tables
  import opened Permissions
  import opened Members
  import opened MemberLaws

  // The requests as atomic steps

  datatype Call =
    | Asked(request: Request)
    | CountForRole(employer: Id, member: MemberKey, role: Role)
    | WriteRole(member: MemberKey, role: Role)
    | CountForRemoval(employer: Id, member: MemberKey, actorRole: Role)
    | WriteStatus(member: MemberKey, status: MemberStatus)
    | RevokeOthers(employer: Id, email: nat, role: Role, id: Id, token: nat)
    | InsertInvite(employer: Id, email: nat, role: Role, id: Id, token: nat)
    | FindUser(found: Id, seen: Invite, newUser: Id)
    | WriteAcceptance(found: Id, seen: Invite, user: Option<Id>, newUser: Id)
    | ExpireInvite(id: Id)
    | RenewInvite(id: Id, token: nat)
    | WriteRevocation(id: Id)

  datatype Outcome =
    | Read(next: Call)
    | Wrote(team: Team, rest: Option<Call>)
    | Refused

  function After(t: Team, o: Outcome): Team {
    if o.Wrote? then o.team else t
  }

  /** What a request reads before its first write; `found` is the row the token of an invite finds. */
  function Ask(t: Team, r: Request, found: Id, now: Instant): Outcome {
    match r
    case CreateInvite(actor, email, role, id, token) =>
      if CreateInviteAllowed(t, actor, email, role) then Read(RevokeOthers(actor.employer, email, role, id, token))
      else Refused
    case PreviewInvite(token) =>
      if Finds(t, found, token) && t.invites[found].expiresAt < now then Read(ExpireInvite(found)) else Refused
    case AcceptInvite(token, newUser, employerActive) =>
      if !Finds(t, found, token) then Refused
      else if t.invites[found].expiresAt < now then Read(ExpireInvite(found))
      else if !employerActive then Refused
      else Read(FindUser(found, t.invites[found], newUser))
    case ResendInvite(actor, id, token) =>
      if !Authorized(t, actor, MemberInvite) || id !in t.invites || t.invites[id].employer != actor.employer
      then Refused
      else if t.invites[id].status != PendingInvite || t.invites[id].resent >= MAX_RESEND_COUNT then Refused
      else Read(RenewInvite(id, token))
    case RevokeInvite(actor, id) =>
      if !Authorized(t, actor, MemberInvite) || id !in t.invites || t.invites[id].employer != actor.employer
      then Refused
      else if t.invites[id].status != PendingInvite then Refused
      else Read(WriteRevocation(id))
    case UpdateMemberRole(actor, member, role) =>
      if !Manages(t, actor, member) then Refused
      else if t.members[member].role == OWNER && t.members[actor].role != OWNER then Refused
      else if !CanManageRole(t.members[actor].role, role) then Refused
      else if t.members[member].role == OWNER && role != OWNER then Read(CountForRole(actor.employer, member, role))
      else Read(WriteRole(member, role))
    case SuspendMember(actor, member) =>
      if SuspendMemberAllowed(t, actor, member) then Read(WriteStatus(member, Suspended)) else Refused
    case RemoveMember(actor, member) =>
      if !Manages(t, actor, member) || member.user == actor.user then Refused
      else if t.members[member].role == OWNER then Read(CountForRemoval(actor.employer, member, t.members[actor].role))
      else Read(WriteStatus(member, Removed))
  }

  /** The transaction of an acceptance: it asks neither for the invite's status nor for the member again. */
  function AcceptCommit(t: Team, found: Id, seen: Invite, user: Option<Id>, newUser: Id): Outcome {
    if found !in t.invites || (user.None? && (seen.email in t.users || !FreshUser(t, newUser))) then Refused
    else
      var users := if user.Some? then t.users else t.users[seen.email := newUser];
      Wrote(Team(t.members[MemberKey(seen.employer, user.GetOr(newUser)) := Member(seen.role, Active)],
                 t.invites[found := t.invites[found].(status := Accepted)], users), None)
  }

  function Advance(t: Team, c: Call, found: Id, now: Instant): Outcome {
    match c
    case Asked(r) => Ask(t, r, found, now)
    case CountForRole(employer, member, role) =>
      if |ActiveOwners(t, employer)| <= 1 then Refused else Read(WriteRole(member, role))
    case WriteRole(member, role) =>
      if member !in t.members then Refused else Wrote(SetMember(t, member, t.members[member].(role := role)), None)
    case CountForRemoval(employer, member, actorRole) =>
      if |ActiveOwners(t, employer)| <= 1 || actorRole != OWNER then Refused else Read(WriteStatus(member, Removed))
    case WriteStatus(member, status) =>
      if member !in t.members then Refused else Wrote(SetMember(t, member, t.members[member].(status := status)), None)
    case RevokeOthers(employer, email, role, id, token) =>
      Wrote(t.(invites := RevokePending(t.invites, employer, email)),
            Some(InsertInvite(employer, email, role, id, token)))
    case InsertInvite(employer, email, role, id, token) =>
      if id in t.invites || !TokenUnused(t, token) then Refused
      else
        var invite := Invite(employer, email, role, token, PendingInvite, now + EXPIRY, 0);
        Wrote(t.(invites := t.invites[id := invite]), None)
    case FindUser(row, seen, newUser) =>
      Read(WriteAcceptance(row, seen, if seen.email in t.users then Some(t.users[seen.email]) else None, newUser))
    case WriteAcceptance(row, seen, user, newUser) => AcceptCommit(t, row, seen, user, newUser)
    case ExpireInvite(id) => if id !in t.invites then Refused else Wrote(Expire(t, id), None)
    case RenewInvite(id, token) =>
      if id !in t.invites || !TokenUnused(t, token) then Refused
      else
        var renewed := t.invites[id].(token := token, expiresAt := now + EXPIRY, resent := t.invites[id].resent + 1);
        Wrote(t.(invites := t.invites[id := renewed]), None)
    case WriteRevocation(id) =>
      if id !in t.invites then Refused
      else Wrote(t.(invites := t.invites[id := t.invites[id].(status := Revoked)]), None)
  }

  datatype World = World(team: Team, calls: map<nat, Call>)

  datatype Action =
    | Begin(n: nat, request: Request)
    | Resume(n: nat, found: Id, now: Instant)

  function Step(w: World, a: Action): World {
    match a
    case Begin(n, request) => if n in w.calls then w else w.(calls := w.calls[n := Asked(request)])
    case Resume(n, found, now) =>
      if n !in w.calls then w
      else
        match Advance(w.team, w.calls[n], found, now)
        case Read(next) => w.(calls := w.calls[n := next])
        case Wrote(team, Some(rest)) => World(team, w.calls[n := rest])
        case Wrote(team, None) => World(team, w.calls - {n})
        case Refused => w.(calls := w.calls - {n})
  }

  function Run(w: World, actions: seq<Action>): World {
    if actions == [] then w else Step(Run(w, actions[..|actions| - 1]), actions[|actions| - 1])
  }

  lemma {:induction false} RunConcat(w: World, actions: seq<Action>, more: seq<Action>)
    ensures Run(w, actions + more) == Run(Run(w, actions), more)
    decreases |more|
  {
    hide Step;
    if more == [] {
      assert actions + more == actions;
    } else {
      assert (actions + more)[..|actions + more| - 1] == actions + more[..|more| - 1];
      RunConcat(w, actions, more[..|more| - 1]);
    }
  }

  // Alone, a request is what it is served as

  function StepsLeft(c: Call): nat {
    match c
    case Asked(_) => 3
    case CountForRole(_, _, _) => 2
    case CountForRemoval(_, _, _) => 2
    case RevokeOthers(_, _, _, _, _) => 2
    case FindUser(_, _, _) => 2
    case _ => 1
  }

  function Alone(t: Team, c: Call, found: Id, now: Instant): Team
    decreases StepsLeft(c)
  {
    match Advance(t, c, found, now)
    case Read(next) => Alone(t, next, found, now)
    case Wrote(team, Some(rest)) => Alone(team, rest, found, now)
    case Wrote(team, None) => team
    case Refused => t
  }

  lemma ManagementAlone(t: Team, r: Request, found: Id, now: Instant)
    requires r.UpdateMemberRole? || r.SuspendMember? || r.RemoveMember?
    ensures Alone(t, Asked(r), found, now) == Serve(t, r, found, now)
  {
    hide Authorized, CanManageRole, ActiveOwners;
    match r
    case UpdateMemberRole(actor, member, role) =>
      if Ask(t, r, found, now).Read? {
        assert Alone(t, CountForRole(actor.employer, member, role), found, now)
            == if |ActiveOwners(t, actor.employer)| <= 1 then t else Alone(t, WriteRole(member, role), found, now);
      }
    case RemoveMember(actor, member) =>
      if Ask(t, r, found, now).Read? && Ask(t, r, found, now).next.CountForRemoval? {
        var actorRole := Ask(t, r, found, now).next.actorRole;
        assert Alone(t, CountForRemoval(actor.employer, member, actorRole), found, now)
            == if |ActiveOwners(t, actor.employer)| <= 1 || actorRole != OWNER then t
               else Alone(t, WriteStatus(member, Removed), found, now);
      }
    case SuspendMember(_, _) =>
  }

  lemma RevokedTokens(t: Team, employer: Id, email: nat, token: nat)
    ensures TokenUnused(t.(invites := RevokePending(t.invites, employer, email)), token) <==> TokenUnused(t, token)
  {
    var revoked := RevokePending(t.invites, employer, email);
    forall i | i in t.invites
      ensures i in revoked && revoked[i].token == t.invites[i].token
    {
    }
  }

  lemma InvitingAlone(t: Team, r: Request, found: Id, now: Instant)
    requires r.CreateInvite? || r.PreviewInvite? || r.ResendInvite? || r.RevokeInvite?
    ensures Alone(t, Asked(r), found, now) == Serve(t, r, found, now)
  {
    hide Authorized, IsMemberByEmail, CanManageRole;
    if r.CreateInvite? && CreateInviteAllowed(t, r.actor, r.email, r.role) {
      var revoked := t.(invites := RevokePending(t.invites, r.actor.employer, r.email));
      assert Alone(t, RevokeOthers(r.actor.employer, r.email, r.role, r.id, r.token), found, now)
          == Alone(revoked, InsertInvite(r.actor.employer, r.email, r.role, r.id, r.token), found, now);
      RevokedTokens(t, r.actor.employer, r.email, r.token);
    }
  }

  lemma AcceptingAlone(t: Team, r: Request, found: Id, now: Instant)
    requires r.AcceptInvite?
    ensures Alone(t, Asked(r), found, now) == Serve(t, r, found, now)
  {
    hide FreshUser;
    if Ask(t, r, found, now).Read? && Ask(t, r, found, now).next.FindUser? {
      var seen := t.invites[found];
      var user := if seen.email in t.users then Some(t.users[seen.email]) else None;
      assert Alone(t, FindUser(found, seen, r.newUser), found, now)
          == Alone(t, WriteAcceptance(found, seen, user, r.newUser), found, now);
    }
  }

  /** Every request served alone is the composition of its atomic steps. */
  lemma ServedAlone(t: Team, r: Request, found: Id, now: Instant)
    ensures Alone(t, Asked(r), found, now) == Serve(t, r, found, now)
  {
    hide Alone, Serve;
    match r
    case UpdateMemberRole(_, _, _) => ManagementAlone(t, r, found, now);
    case SuspendMember(_, _) => ManagementAlone(t, r, found, now);
    case RemoveMember(_, _) => ManagementAlone(t, r, found, now);
    case AcceptInvite(_, _, _) => AcceptingAlone(t, r, found, now);
    case _ => InvitingAlone(t, r, found, now);
  }

  // The last owner

  /** The write is about an active owner of the employer and gives the row another role or status. */
  predicate TakesOwner(t: Team, c: Call, employer: Id) {
    match c
    case WriteRole(member, role) => member in ActiveOwners(t, employer) && role != OWNER
    case WriteStatus(member, status) => member in ActiveOwners(t, employer) && status != Active
    case WriteAcceptance(_, seen, user, newUser) =>
      MemberKey(seen.employer, user.GetOr(newUser)) in ActiveOwners(t, employer) && seen.role != OWNER
    case _ => false
  }

  lemma OwnersOf(t: Team, employer: Id)
    ensures HasOwner(t, employer) <==> ActiveOwners(t, employer) != {}
  {
    if HasOwner(t, employer) {
      var k :| k in t.members && k.employer == employer && t.members[k] == Member(OWNER, Active);
      assert k in ActiveOwners(t, employer);
    }
  }

  lemma Singleton(s: set<MemberKey>, k: MemberKey)
    requires k in s
    ensures |s| > 1 <==> s - {k} != {}
  {
    assert |s - {k}| == |s| - 1;
  }

  /** A row that stops being an active owner. */
  lemma OwnerTaken(t: Team, t': Team, employer: Id, k: MemberKey)
    requires k in ActiveOwners(t, employer) && k !in ActiveOwners(t', employer)
    requires forall j :: j != k ==>
               (j in t'.members <==> j in t.members) && (j in t.members ==> t'.members[j] == t.members[j])
    ensures HasOwner(t', employer) <==> |ActiveOwners(t, employer)| > 1
  {
    assert ActiveOwners(t', employer) == ActiveOwners(t, employer) - {k};
    Singleton(ActiveOwners(t, employer), k);
    OwnersOf(t', employer);
  }

  /** No active owner's row has changed. */
  lemma OwnersStay(t: Team, t': Team, employer: Id)
    requires HasOwner(t, employer)
    requires forall k :: k in ActiveOwners(t, employer) ==> k in t'.members && t'.members[k] == Member(OWNER, Active)
    ensures HasOwner(t', employer)
  {
    var k :| k in t.members && k.employer == employer && t.members[k] == Member(OWNER, Active);
    assert k in ActiveOwners(t, employer);
  }

  /** A write on one member row. */
  lemma MemberWritten(t: Team, t': Team, k: MemberKey, row: Member, employer: Id)
    requires HasOwner(t, employer) && t'.members == t.members[k := row]
    ensures HasOwner(t', employer)
       <==> (k in ActiveOwners(t, employer) && row != Member(OWNER, Active) ==> |ActiveOwners(t, employer)| > 1)
  {
    if k in ActiveOwners(t, employer) && row != Member(OWNER, Active) {
      OwnerTaken(t, t', employer, k);
    } else {
      OwnersStay(t, t', employer);
    }
  }

  lemma OwnersListed(t: Team, employer: Id, k: MemberKey)
    ensures k in ActiveOwners(t, employer)
       <==> k in t.members && k.employer == employer && t.members[k] == Member(OWNER, Active)
  {
  }

  /** From any team with an active owner, the next step of a request leaves one if and only if it does not take an
      active owner's row while the employer has no other: the guard's count, taken when the write lands. */
  lemma OwnerKeptIff(t: Team, c: Call, found: Id, now: Instant, employer: Id)
    requires HasOwner(t, employer)
    ensures var o := Advance(t, c, found, now);
            HasOwner(After(t, o), employer)
            <==> (o.Wrote? && TakesOwner(t, c, employer) ==> |ActiveOwners(t, employer)| > 1)
  {
    hide HasOwner, ActiveOwners, FreshUser, TokenUnused, Finds, Authorized, Manages, CanManageRole, IsMemberByEmail;
    var o := Advance(t, c, found, now);
    match c
    case WriteRole(member, role) =>
      if member in t.members {
        OwnersListed(t, employer, member);
        MemberWritten(t, o.team, member, t.members[member].(role := role), employer);
      }
    case WriteStatus(member, status) =>
      if member in t.members {
        OwnersListed(t, employer, member);
        MemberWritten(t, o.team, member, t.members[member].(status := status), employer);
      }
    case WriteAcceptance(_, seen, user, newUser) =>
      if o.Wrote? {
        MemberWritten(t, o.team, MemberKey(seen.employer, user.GetOr(newUser)), Member(seen.role, Active), employer);
      }
    case Asked(r) => hide Advance; AskingWritesNothing(t, r, found, now);
    case RevokeOthers(_, _, _, _, _) => SameOwners(t, o.team, employer);
    case InsertInvite(_, _, _, _, _) => if o.Wrote? { SameOwners(t, o.team, employer); }
    case ExpireInvite(_) => if o.Wrote? { SameOwners(t, o.team, employer); }
    case RenewInvite(_, _) => if o.Wrote? { SameOwners(t, o.team, employer); }
    case WriteRevocation(_) => if o.Wrote? { SameOwners(t, o.team, employer); }
    case _ =>
  }

  lemma AskingWritesNothing(t: Team, r: Request, found: Id, now: Instant)
    ensures !Advance(t, Asked(r), found, now).Wrote?
  {
    hide Finds, Authorized, Manages, CanManageRole, IsMemberByEmail, SuspendMemberAllowed, CreateInviteAllowed;
  }

  lemma SameOwners(t: Team, t': Team, employer: Id)
    requires t'.members == t.members
    ensures HasOwner(t', employer) <==> HasOwner(t, employer)
  {
  }

  /** The step takes the row of the employer's last active owner. */
  predicate TakesLastOwner(w: World, a: Action, employer: Id) {
    && a.Resume? && a.n in w.calls
    && Advance(w.team, w.calls[a.n], a.found, a.now).Wrote?
    && TakesOwner(w.team, w.calls[a.n], employer) && |ActiveOwners(w.team, employer)| <= 1
  }

  lemma StepTeam(w: World, n: nat, found: Id, now: Instant)
    requires n in w.calls
    ensures Step(w, Resume(n, found, now)).team == After(w.team, Advance(w.team, w.calls[n], found, now))
  {
    hide Advance;
  }

  lemma StepOwnerKeptIff(w: World, a: Action, employer: Id)
    requires HasOwner(w.team, employer)
    ensures HasOwner(Step(w, a).team, employer) <==> !TakesLastOwner(w, a, employer)
  {
    hide HasOwner, Advance, TakesOwner, ActiveOwners;
    if a.Resume? && a.n in w.calls {
      OwnerKeptIff(w.team, w.calls[a.n], a.found, a.now, employer);
      StepTeam(w, a.n, a.found, a.now);
    }
  }

  lemma RunNext(w: World, actions: seq<Action>, i: nat)
    requires i < |actions|
    ensures Run(w, actions[..i + 1]) == Step(Run(w, actions[..i]), actions[i])
  {
    hide Step;
    assert actions[..i + 1][..i] == actions[..i];
  }

  lemma {:induction false} OwnerSoFar(w: World, actions: seq<Action>, employer: Id, n: nat)
    requires HasOwner(w.team, employer) && n <= |actions|
    ensures (forall i :: 0 <= i <= n ==> HasOwner(Run(w, actions[..i]).team, employer))
       <==> (forall i :: 0 <= i < n ==> !TakesLastOwner(Run(w, actions[..i]), actions[i], employer))
  {
    hide HasOwner, TakesLastOwner, Step;
    if n == 0 {
      assert actions[..0] == [];
    } else {
      OwnerSoFar(w, actions, employer, n - 1);
      RunNext(w, actions, n - 1);
      if HasOwner(Run(w, actions[..n - 1]).team, employer) {
        StepOwnerKeptIff(Run(w, actions[..n - 1]), actions[n - 1], employer);
      }
    }
  }

  /** Over any interleaved run from a team with an active owner there is always one, if and only if no write takes the
      row of an active owner while there is no other. */
  lemma OwnersKeptIff(w: World, actions: seq<Action>, employer: Id)
    requires HasOwner(w.team, employer)
    ensures (forall i :: 0 <= i <= |actions| ==> HasOwner(Run(w, actions[..i]).team, employer))
       <==> (forall i :: 0 <= i < |actions| ==> !TakesLastOwner(Run(w, actions[..i]), actions[i], employer))
  {
    hide HasOwner, TakesLastOwner, Run;
    OwnerSoFar(w, actions, employer, |actions|);
  }

  // Owners who end each other

  datatype How = Removal | Suspension | Demotion(role: Role)

  /** What an owner does to the owner at an index, which may be the owner itself for a demotion. */
  datatype Deed = Deed(target: nat, how: How)

  /** Every owner acts once, and every owner is acted on. */
  predicate EndsEverybody(plan: seq<Deed>) {
    && (forall i :: 0 <= i < |plan| ==> plan[i].target < |plan|)
    && (forall i :: 0 <= i < |plan| ==>
          if plan[i].how.Demotion? then plan[i].how.role != OWNER else plan[i].target != i)
    && (forall j :: 0 <= j < |plan| ==> IsChosen(plan, j))
  }

  predicate IsChosen(plan: seq<Deed>, j: nat) {
    exists i :: 0 <= i < |plan| && plan[i].target == j
  }

  function RequestOf(owner: MemberKey, other: MemberKey, how: How): Request {
    match how
    case Removal => RemoveMember(owner, other)
    case Suspension => SuspendMember(owner, other)
    case Demotion(role) => UpdateMemberRole(owner, other, role)
  }

  function WriteOf(other: MemberKey, how: How): Call {
    match how
    case Removal => WriteStatus(other, Removed)
    case Suspension => WriteStatus(other, Suspended)
    case Demotion(role) => WriteRole(other, role)
  }

  /** The reads of one request: a suspension does not count the owners. */
  function GuardsOf(n: nat, owner: MemberKey, other: MemberKey, how: How): seq<Action> {
    [Begin(n, RequestOf(owner, other, how)), Resume(n, 0, 0)] + if how.Suspension? then [] else [Resume(n, 0, 0)]
  }

  /** Everybody's reads, and then everybody's write. */
  function Guards(owners: seq<MemberKey>, plan: seq<Deed>, n: nat): seq<Action>
    requires n <= |owners| == |plan| && EndsEverybody(plan)
  {
    if n == 0 then []
    else
      var i := n - 1;
      Guards(owners, plan, i) + GuardsOf(i, owners[i], owners[plan[i].target], plan[i].how)
  }

  function Landings(n: nat): seq<Action> {
    if n == 0 then [] else Landings(n - 1) + [Resume(n - 1, 0, 0)]
  }

  lemma Run2(w: World, s: seq<Action>)
    requires |s| == 2
    ensures Run(w, s) == Step(Step(w, s[0]), s[1])
  {
    hide Step;
    assert s[..1][..0] == [];
    assert Run(w, s[..1]) == Step(w, s[0]);
  }

  lemma Run3(w: World, s: seq<Action>)
    requires |s| == 3
    ensures Run(w, s) == Step(Step(Step(w, s[0]), s[1]), s[2])
  {
    hide Step;
    Run2(w, s[..2]);
  }

  lemma Begins(w: World, n: nat, r: Request)
    requires n !in w.calls
    ensures Step(w, Begin(n, r)) == World(w.team, w.calls[n := Asked(r)])
  {
  }

  lemma Reads(w: World, n: nat, next: Call)
    requires n in w.calls && Advance(w.team, w.calls[n], 0, 0) == Read(next)
    ensures Step(w, Resume(n, 0, 0)) == World(w.team, w.calls[n := next])
  {
    hide Advance;
  }

  lemma Writes(w: World, n: nat, t: Team)
    requires n in w.calls && Advance(w.team, w.calls[n], 0, 0) == Wrote(t, None)
    ensures Step(w, Resume(n, 0, 0)) == World(t, w.calls - {n})
  {
    hide Advance;
  }

  lemma OwnerMayAct(t: Team, owner: MemberKey, other: MemberKey, how: How)
    requires owner in ActiveOwners(t, owner.employer) && other in ActiveOwners(t, owner.employer)
    requires |ActiveOwners(t, owner.employer)| > 1
    requires if how.Demotion? then how.role != OWNER else owner != other
    ensures var first := Ask(t, RequestOf(owner, other, how), 0, 0);
            && first.Read?
            && if how.Suspension? then first.next == WriteOf(other, how)
               else Advance(t, first.next, 0, 0) == Read(WriteOf(other, how))
  {
    assert HasPermission(OWNER, MemberManage);
    assert owner.user == other.user ==> owner == other;
  }

  lemma GuardsPass(t: Team, calls: map<nat, Call>, n: nat, owner: MemberKey, other: MemberKey, how: How)
    requires n !in calls
    requires owner in ActiveOwners(t, owner.employer) && other in ActiveOwners(t, owner.employer)
    requires |ActiveOwners(t, owner.employer)| > 1
    requires if how.Demotion? then how.role != OWNER else owner != other
    ensures Run(World(t, calls), GuardsOf(n, owner, other, how)) == World(t, calls[n := WriteOf(other, how)])
  {
    hide Advance, Step, ActiveOwners, WriteOf, RequestOf;
    var r, s := RequestOf(owner, other, how), GuardsOf(n, owner, other, how);
    OwnerMayAct(t, owner, other, how);
    AskedStep(t, r);
    var next := Ask(t, r, 0, 0).next;
    Begins(World(t, calls), n, r);
    Reads(World(t, calls[n := Asked(r)]), n, next);
    assert calls[n := Asked(r)][n := next] == calls[n := next];
    if how.Suspension? {
      Run2(World(t, calls), s);
    } else {
      Reads(World(t, calls[n := next]), n, WriteOf(other, how));
      assert calls[n := next][n := WriteOf(other, how)] == calls[n := WriteOf(other, how)];
      Run3(World(t, calls), s);
    }
  }

  lemma AskedStep(t: Team, r: Request)
    ensures Advance(t, Asked(r), 0, 0) == Ask(t, r, 0, 0)
  {
    hide Ask;
  }

  ghost function Waiting(owners: seq<MemberKey>, plan: seq<Deed>, from: nat, to: nat): map<nat, Call>
    requires to <= |owners| == |plan| && EndsEverybody(plan)
  {
    map i: nat | from <= i < to :: WriteOf(owners[plan[i].target], plan[i].how)
  }

  lemma {:induction false} AllGuardsPass(t: Team, employer: Id, owners: seq<MemberKey>, plan: seq<Deed>, n: nat)
    requires IsListing(owners, ActiveOwners(t, employer)) && |ActiveOwners(t, employer)| > 1
    requires n <= |owners| == |plan| && EndsEverybody(plan)
    ensures Run(World(t, map[]), Guards(owners, plan, n)) == World(t, Waiting(owners, plan, 0, n))
  {
    hide Step, ActiveOwners, WriteOf;
    if n == 0 {
      assert Waiting(owners, plan, 0, 0) == map[];
    } else {
      var i := n - 1;
      AllGuardsPass(t, employer, owners, plan, i);
      RunConcat(World(t, map[]), Guards(owners, plan, i), GuardsOf(i, owners[i], owners[plan[i].target], plan[i].how));
      assert owners[i] in owners && owners[plan[i].target] in owners;
      OwnersListed(t, employer, owners[i]);
      GuardsPass(t, Waiting(owners, plan, 0, i), i, owners[i], owners[plan[i].target], plan[i].how);
      assert Waiting(owners, plan, 0, i)[i := WriteOf(owners[plan[i].target], plan[i].how)]
          == Waiting(owners, plan, 0, n);
    }
  }

  /** After the first `n` writes their targets are no active owners, and nobody has become one. */
  ghost predicate EndedSoFar(t: Team, t': Team, owners: seq<MemberKey>, plan: seq<Deed>, n: nat)
    requires n <= |owners| == |plan| && EndsEverybody(plan)
  {
    && t'.members.Keys == t.members.Keys
    && (forall k :: k in t'.members && t'.members[k] == Member(OWNER, Active) ==> t.members[k] == Member(OWNER, Active))
    && forall i :: 0 <= i < n ==>
         owners[plan[i].target] in t'.members && t'.members[owners[plan[i].target]] != Member(OWNER, Active)
  }

  lemma LandingEnds(t: Team, t': Team, owners: seq<MemberKey>, plan: seq<Deed>, n: nat)
    requires n < |owners| == |plan| && EndsEverybody(plan) && EndedSoFar(t, t', owners, plan, n)
    requires forall k :: k in owners ==> k in t.members
    ensures var o := Advance(t', WriteOf(owners[plan[n].target], plan[n].how), 0, 0);
            o.Wrote? && o.rest == None && EndedSoFar(t, o.team, owners, plan, n + 1)
  {
    assert owners[plan[n].target] in owners;
  }

  lemma {:induction false} WritesLand(t: Team, owners: seq<MemberKey>, plan: seq<Deed>, n: nat)
    requires n <= |owners| == |plan| && EndsEverybody(plan) && forall k :: k in owners ==> k in t.members
    ensures var w := Run(World(t, Waiting(owners, plan, 0, |owners|)), Landings(n));
            EndedSoFar(t, w.team, owners, plan, n) && w.calls == Waiting(owners, plan, n, |owners|)
  {
    hide Step, Advance, WriteOf, EndedSoFar;
    var start := World(t, Waiting(owners, plan, 0, |owners|));
    if n == 0 {
      NothingEnded(t, owners, plan);
    } else {
      WritesLand(t, owners, plan, n - 1);
      var w := Run(start, Landings(n - 1));
      RunConcat(start, Landings(n - 1), [Resume(n - 1, 0, 0)]);
      LandingEnds(t, w.team, owners, plan, n - 1);
      Writes(w, n - 1, Advance(w.team, WriteOf(owners[plan[n - 1].target], plan[n - 1].how), 0, 0).team);
      OneStep(w, Resume(n - 1, 0, 0));
      assert w.calls - {n - 1} == Waiting(owners, plan, n, |owners|);
    }
  }

  lemma OneStep(w: World, a: Action)
    ensures Run(w, [a]) == Step(w, a)
  {
    hide Step;
    assert [a][..0] == [];
  }

  lemma NothingEnded(t: Team, owners: seq<MemberKey>, plan: seq<Deed>)
    requires |owners| == |plan| && EndsEverybody(plan)
    ensures EndedSoFar(t, t, owners, plan, 0)
  {
  }

  /** However many active owners there are: when each removes, suspends or demotes one of them, itself included for a
      demotion, each is chosen by somebody and all counts are read before the first write, then every request goes
      through and the employer is left without an active owner. */
  lemma {:induction false} OwnersEndEachOther(t: Team, employer: Id, owners: seq<MemberKey>, plan: seq<Deed>)
    requires IsListing(owners, ActiveOwners(t, employer)) && |ActiveOwners(t, employer)| > 1
    requires |plan| == |owners| && EndsEverybody(plan)
    ensures HasOwner(t, employer)
    ensures var w := Run(World(t, map[]), Guards(owners, plan, |owners|) + Landings(|owners|));
            w.calls == map[] && !HasOwner(w.team, employer)
  {
    hide Step, WriteOf;
    var n := |owners|;
    OwnersOf(t, employer);
    AllGuardsPass(t, employer, owners, plan, n);
    assert forall k :: k in owners ==> k in ActiveOwners(t, employer);
    WritesLand(t, owners, plan, n);
    RunConcat(World(t, map[]), Guards(owners, plan, n), Landings(n));
    NoOwnerLeft(t, Run(World(t, map[]), Guards(owners, plan, n) + Landings(n)).team, employer, owners, plan);
  }

  lemma NoOwnerLeft(t: Team, t': Team, employer: Id, owners: seq<MemberKey>, plan: seq<Deed>)
    requires IsListing(owners, ActiveOwners(t, employer)) && |plan| == |owners| && EndsEverybody(plan)
    requires EndedSoFar(t, t', owners, plan, |owners|)
    ensures !HasOwner(t', employer)
  {
    forall k | k in t'.members && k.employer == employer
      ensures t'.members[k] != Member(OWNER, Active)
    {
      if t.members[k] == Member(OWNER, Active) {
        assert k in ActiveOwners(t, employer);
        var j :| 0 <= j < |owners| && owners[j] == k;
        assert IsChosen(plan, j);
        var i :| 0 <= i < |plan| && plan[i].target == j;
        assert owners[plan[i].target] == k;
      }
    }
  }

  // Invites

  /** What is settled about an invite once it is read; its status is not. */
  ghost predicate Knows(t: Team, found: Id, seen: Invite) {
    && found in t.invites && seen.role != OWNER
    && t.invites[found].employer == seen.employer && t.invites[found].email == seen.email
    && t.invites[found].role == seen.role
  }

  ghost predicate CallOk(t: Team, c: Call) {
    match c
    case RevokeOthers(_, _, role, _, _) => role != OWNER
    case InsertInvite(_, _, role, _, _) => role != OWNER
    case FindUser(found, seen, _) => Knows(t, found, seen)
    case WriteAcceptance(found, seen, user, _) =>
      Knows(t, found, seen) && (user.Some? ==> seen.email in t.users && t.users[seen.email] == user.value)
    case _ => true
  }

  /** What no write takes back. */
  ghost predicate Grows(t: Team, t': Team) {
    && (forall i :: i in t.invites ==>
          && i in t'.invites && t'.invites[i].employer == t.invites[i].employer
          && t'.invites[i].email == t.invites[i].email && t'.invites[i].role == t.invites[i].role)
    && (forall e :: e in t.users ==> e in t'.users && t'.users[e] == t.users[e])
  }

  predicate Pending(t: Team, i: Id, employer: Id, email: nat) {
    i in t.invites && t.invites[i].status == PendingInvite && t.invites[i].employer == employer
    && t.invites[i].email == email
  }

  /** What the write takes for granted about invites: no other invite is pending for the address it invites or accepts,
      the invited address is no member's, and a removed member who gets a status again is not invited. */
  ghost predicate Unopposed(t: Team, c: Call) {
    match c
    case InsertInvite(employer, email, _, _, _) =>
      (forall i :: !Pending(t, i, employer, email)) && !IsMemberByEmail(t, employer, email)
    case WriteAcceptance(found, seen, _, _) => forall i :: Pending(t, i, seen.employer, seen.email) ==> i == found
    case WriteStatus(member, status) =>
      status == Removed || IsMember(t, member.employer, member.user)
      || forall i, e :: Pending(t, i, member.employer, e) ==> !(e in t.users && t.users[e] == member.user)
    case _ => true
  }

  lemma AcceptanceWritten(t: Team, found: Id, seen: Invite, user: Option<Id>, newUser: Id)
    requires Inv(t) && CallOk(t, WriteAcceptance(found, seen, user, newUser))
    requires AcceptCommit(t, found, seen, user, newUser).Wrote?
    ensures var t' := AcceptCommit(t, found, seen, user, newUser).team;
            Grows(t, t') && (Inv(t') <==> Unopposed(t, WriteAcceptance(found, seen, user, newUser)))
  {
    var t' := AcceptCommit(t, found, seen, user, newUser).team;
    var u := user.GetOr(newUser);
    assert seen.email in t'.users && t'.users[seen.email] == u;
    assert IsMemberByEmail(t', seen.employer, seen.email);
    AcceptanceRest(t, found, seen, user, newUser);
    if Unopposed(t, WriteAcceptance(found, seen, user, newUser)) {
      forall i | i in t'.invites && t'.invites[i].status == PendingInvite
        ensures !IsMemberByEmail(t', t'.invites[i].employer, t'.invites[i].email)
      {
        assert Pending(t, i, t.invites[i].employer, t.invites[i].email);
      }
    } else {
      var i :| Pending(t, i, seen.employer, seen.email) && i != found;
      assert t'.invites[i] == t.invites[i];
    }
  }

  lemma AcceptanceRest(t: Team, found: Id, seen: Invite, user: Option<Id>, newUser: Id)
    requires Inv(t) && CallOk(t, WriteAcceptance(found, seen, user, newUser))
    requires AcceptCommit(t, found, seen, user, newUser).Wrote?
    ensures var t' := AcceptCommit(t, found, seen, user, newUser).team;
            Grows(t, t') && OnePending(t'.invites) && NoOwnerInvited(t'.invites) && DistinctUsers(t'.users)
  {
  }

  lemma InviteInserted(t: Team, id: Id, invite: Invite)
    requires Inv(t) && id !in t.invites && invite.role != OWNER && invite.status == PendingInvite
    ensures var t' := t.(invites := t.invites[id := invite]);
            && Grows(t, t')
            && (Inv(t') <==> (forall i :: !Pending(t, i, invite.employer, invite.email))
                             && !IsMemberByEmail(t, invite.employer, invite.email))
  {
    var t' := t.(invites := t.invites[id := invite]);
    assert id in t'.invites && t'.invites[id] == invite;
    assert IsMemberByEmail(t', invite.employer, invite.email) <==> IsMemberByEmail(t, invite.employer, invite.email);
    if i :| Pending(t, i, invite.employer, invite.email) {
      assert i in t'.invites && t'.invites[i] == t.invites[i] && i != id;
    } else {
      hide IsMemberByEmail;
      assert forall i :: i in t.invites && t.invites[i].status == PendingInvite ==>
                           Pending(t, i, t.invites[i].employer, t.invites[i].email);
    }
  }

  lemma StatusWritten(t: Team, member: MemberKey, status: MemberStatus)
    requires Inv(t) && member in t.members
    ensures var t' := SetMember(t, member, t.members[member].(status := status));
            Inv(t') <==> Unopposed(t, WriteStatus(member, status))
  {
    var t' := SetMember(t, member, t.members[member].(status := status));
    assert MemberKey(member.employer, member.user) == member;
    if !Unopposed(t, WriteStatus(member, status)) {
      var i, e :| Pending(t, i, member.employer, e) && e in t.users && t.users[e] == member.user;
      assert IsMemberByEmail(t', t'.invites[i].employer, t'.invites[i].email);
    } else {
      forall i | i in t'.invites && t'.invites[i].status == PendingInvite
        ensures !IsMemberByEmail(t', t'.invites[i].employer, t'.invites[i].email)
      {
        assert Pending(t, i, t.invites[i].employer, t.invites[i].email);
        assert !IsMemberByEmail(t, t.invites[i].employer, t.invites[i].email);
      }
    }
  }

  /** Writes on invites that leave none pending that was not. */
  lemma InvitesClosed(t: Team, invites: map<Id, Invite>)
    requires Inv(t) && invites.Keys == t.invites.Keys
    requires forall i :: i in invites ==>
      && invites[i].employer == t.invites[i].employer && invites[i].email == t.invites[i].email
      && invites[i].role == t.invites[i].role
      && (invites[i].status == PendingInvite ==> t.invites[i].status == PendingInvite)
    ensures Inv(t.(invites := invites)) && Grows(t, t.(invites := invites))
  {
  }

  lemma RoleWritten(t: Team, member: MemberKey, role: Role)
    requires Inv(t) && member in t.members
    ensures Inv(SetMember(t, member, t.members[member].(role := role)))
  {
  }

  ghost predicate StepOk(t: Team, o: Outcome) {
    match o
    case Read(next) => CallOk(t, next)
    case Wrote(t', rest) => Grows(t, t') && (rest.Some? ==> CallOk(t', rest.value))
    case Refused => true
  }

  lemma AskingOk(t: Team, r: Request, found: Id, now: Instant)
    requires Inv(t)
    ensures !Ask(t, r, found, now).Wrote? && StepOk(t, Ask(t, r, found, now))
  {
    hide Manages, IsMemberByEmail, SuspendMemberAllowed, OnePending, DistinctUsers, PendingNotMembers;
    if r.CreateInvite? && CreateInviteAllowed(t, r.actor, r.email, r.role) {
      ManagingIsStrict(t.members[r.actor].role, r.role, OWNER);
    }
  }

  /** From any orderly team, the next step of a request leaves an orderly one, with one pending invite for an address
      and none for a member, if and only if it writes nothing or its write is unopposed. */
  lemma InvitesKeptIff(t: Team, c: Call, found: Id, now: Instant)
    requires Inv(t) && CallOk(t, c)
    ensures var o := Advance(t, c, found, now);
            StepOk(t, o) && (Inv(After(t, o)) <==> (o.Wrote? ==> Unopposed(t, c)))
  {
    hide Inv, Ask, AcceptCommit, IsMemberByEmail, TokenUnused, ActiveOwners, RevokePending;
    match c
    case Asked(r) => AskingOk(t, r, found, now);
    case WriteRole(member, role) => if member in t.members { RoleWritten(t, member, role); }
    case WriteStatus(member, status) => if member in t.members { StatusWritten(t, member, status); }
    case RevokeOthers(employer, email, _, _, _) => RevokingCloses(t, employer, email);
    case InsertInvite(employer, email, role, id, token) =>
      if id !in t.invites {
        InviteInserted(t, id, Invite(employer, email, role, token, PendingInvite, now + EXPIRY, 0));
      }
    case WriteAcceptance(row, seen, user, newUser) =>
      AcceptCommits(t, row, seen, user, newUser);
      if AcceptCommit(t, row, seen, user, newUser).Wrote? { AcceptanceWritten(t, row, seen, user, newUser); }
    case ExpireInvite(id) => if id in t.invites { InvitesClosed(t, Expire(t, id).invites); }
    case RenewInvite(id, token) =>
      if id in t.invites {
        var renewed := t.invites[id].(token := token, expiresAt := now + EXPIRY, resent := t.invites[id].resent + 1);
        InvitesClosed(t, t.invites[id := renewed]);
      }
    case WriteRevocation(id) =>
      if id in t.invites { InvitesClosed(t, t.invites[id := t.invites[id].(status := Revoked)]); }
    case _ =>
  }

  lemma RevokingCloses(t: Team, employer: Id, email: nat)
    requires Inv(t)
    ensures var t' := t.(invites := RevokePending(t.invites, employer, email)); Inv(t') && Grows(t, t')
  {
    InvitesClosed(t, RevokePending(t.invites, employer, email));
  }

  lemma AcceptCommits(t: Team, found: Id, seen: Invite, user: Option<Id>, newUser: Id)
    ensures var o := AcceptCommit(t, found, seen, user, newUser); o.Refused? || (o.Wrote? && o.rest == None)
  {
  }

  ghost predicate Orderly(w: World) {
    Inv(w.team) && forall n :: n in w.calls ==> CallOk(w.team, w.calls[n])
  }

  /** The step writes although what it takes for granted about invites has changed. */
  ghost predicate Opposed(w: World, a: Action) {
    && a.Resume? && a.n in w.calls
    && Advance(w.team, w.calls[a.n], a.found, a.now).Wrote? && !Unopposed(w.team, w.calls[a.n])
  }

  lemma CallStable(t: Team, t': Team, c: Call)
    requires CallOk(t, c) && Grows(t, t')
    ensures CallOk(t', c)
  {
  }

  lemma StepOrderlyIff(w: World, a: Action)
    requires Orderly(w)
    ensures Orderly(Step(w, a)) <==> !Opposed(w, a)
    ensures Inv(Step(w, a).team) <==> !Opposed(w, a)
  {
    hide Inv, Advance, CallOk, Grows, Unopposed;
    match a
    case Begin(n, request) => RequestOk(w.team, request);
    case Resume(n, found, now) =>
      if n in w.calls {
        InvitesKeptIff(w.team, w.calls[n], found, now);
        var o := Advance(w.team, w.calls[n], found, now);
        if o.Wrote? {
          forall m | m in w.calls
            ensures CallOk(o.team, w.calls[m])
          {
            CallStable(w.team, o.team, w.calls[m]);
          }
        }
      }
  }

  lemma RequestOk(t: Team, r: Request)
    ensures CallOk(t, Asked(r))
  {
  }

  lemma {:induction false} OrderlySoFar(w: World, actions: seq<Action>, n: nat)
    requires Orderly(w) && n <= |actions|
    ensures (forall i :: 0 <= i <= n ==> Inv(Run(w, actions[..i]).team))
       <==> (forall i :: 0 <= i < n ==> !Opposed(Run(w, actions[..i]), actions[i]))
    ensures (forall i :: 0 <= i < n ==> !Opposed(Run(w, actions[..i]), actions[i])) ==> Orderly(Run(w, actions[..n]))
  {
    hide Inv, Opposed, Step, CallOk, Orderly;
    if n == 0 {
      assert actions[..0] == [];
      OrderlyTeam(w);
    } else {
      OrderlySoFar(w, actions, n - 1);
      RunNext(w, actions, n - 1);
      if Orderly(Run(w, actions[..n - 1])) {
        StepOrderlyIff(Run(w, actions[..n - 1]), actions[n - 1]);
        OrderlyTeam(Run(w, actions[..n - 1]));
      }
    }
  }

  lemma OrderlyTeam(w: World)
    requires Orderly(w)
    ensures Inv(w.team)
  {
  }

  /** Over any interleaved run from an orderly team, at most one invite is ever pending for an address and none for a
      member, if and only if no write lands opposed. */
  lemma InvitesKeptOverRunIff(w: World, actions: seq<Action>)
    requires Orderly(w)
    ensures (forall i :: 0 <= i <= |actions| ==> Inv(Run(w, actions[..i]).team))
       <==> (forall i :: 0 <= i < |actions| ==> !Opposed(Run(w, actions[..i]), actions[i]))
  {
    hide Inv, Opposed, Orderly, Run;
    OrderlySoFar(w, actions, |actions|);
  }

  // Two invitations at once

  function RevokeFirst(n: nat, r: Request): seq<Action> {
    [Begin(n, r), Resume(n, 0, 0), Resume(n, 0, 0)]
  }

  /** Both requests revoke before either inserts. */
  function InviteTwice(first: Request, second: Request): seq<Action> {
    RevokeFirst(0, first) + (RevokeFirst(1, second) + [Resume(0, 0, 0), Resume(1, 0, 0)])
  }

  lemma Continues(w: World, n: nat, t: Team, rest: Call)
    requires n in w.calls && Advance(w.team, w.calls[n], 0, 0) == Wrote(t, Some(rest))
    ensures Step(w, Resume(n, 0, 0)) == World(t, w.calls[n := rest])
  {
    hide Advance;
  }

  function WithoutPending(t: Team, employer: Id, email: nat): Team {
    t.(invites := RevokePending(t.invites, employer, email))
  }

  lemma Revokes(t: Team, calls: map<nat, Call>, n: nat, r: Request)
    requires n !in calls && r.CreateInvite? && CreateInviteAllowed(t, r.actor, r.email, r.role)
    ensures Run(World(t, calls), RevokeFirst(n, r))
         == World(WithoutPending(t, r.actor.employer, r.email),
                  calls[n := InsertInvite(r.actor.employer, r.email, r.role, r.id, r.token)])
  {
    var employer, s := r.actor.employer, RevokeFirst(n, r);
    var revoke, insert :=
      RevokeOthers(employer, r.email, r.role, r.id, r.token), InsertInvite(employer, r.email, r.role, r.id, r.token);
    assert Advance(t, Asked(r), 0, 0) == Read(revoke);
    assert Advance(t, revoke, 0, 0) == Wrote(WithoutPending(t, employer, r.email), Some(insert));
    hide Advance, Step, CreateInviteAllowed, RevokePending;
    Begins(World(t, calls), n, r);
    Reads(World(t, calls[n := Asked(r)]), n, revoke);
    assert calls[n := Asked(r)][n := revoke] == calls[n := revoke];
    Continues(World(t, calls[n := revoke]), n, WithoutPending(t, employer, r.email), insert);
    assert calls[n := revoke][n := insert] == calls[n := insert];
    Run3(World(t, calls), s);
  }

  lemma Inserts(t: Team, employer: Id, email: nat, role: Role, id: Id, token: nat)
    requires id !in t.invites && TokenUnused(t, token)
    ensures var invite := Invite(employer, email, role, token, PendingInvite, EXPIRY, 0);
            Advance(t, InsertInvite(employer, email, role, id, token), 0, 0)
            == Wrote(t.(invites := t.invites[id := invite]), None)
  {
    hide TokenUnused;
  }

  lemma RevokedTeam(t: Team, employer: Id, email: nat, actor: MemberKey, role: Role, token: nat)
    ensures var t' := WithoutPending(t, employer, email);
            && t'.invites.Keys == t.invites.Keys && (TokenUnused(t', token) <==> TokenUnused(t, token))
            && (CreateInviteAllowed(t', actor, email, role) <==> CreateInviteAllowed(t, actor, email, role))
  {
    RevokedTokens(t, employer, email, token);
  }

  /** From every team, two invitations to one address that both revoke before either inserts leave two pending
      invites. */
  lemma InvitesCross(t: Team, first: Request, second: Request)
    requires first.CreateInvite? && second.CreateInvite? && first.email == second.email
    requires first.actor.employer == second.actor.employer && first.id != second.id && first.token != second.token
    requires CreateInviteAllowed(t, first.actor, first.email, first.role)
    requires CreateInviteAllowed(t, second.actor, second.email, second.role)
    requires first.id !in t.invites && second.id !in t.invites && TokenUnused(t, first.token)
    requires TokenUnused(t, second.token)
    ensures var w := Run(World(t, map[]), InviteTwice(first, second));
            && w.calls == map[]
            && Pending(w.team, first.id, first.actor.employer, first.email)
            && Pending(w.team, second.id, first.actor.employer, first.email)
            && !Inv(w.team)
  {
    hide Advance, Step, CreateInviteAllowed, TokenUnused, RevokePending;
    var employer, email := first.actor.employer, first.email;
    var i1, i2 := InsertInvite(employer, email, first.role, first.id, first.token),
                  InsertInvite(employer, email, second.role, second.id, second.token);
    var start, rest := World(t, map[]), [Resume(0, 0, 0), Resume(1, 0, 0)];
    Revokes(t, map[], 0, first);
    var t1 := WithoutPending(t, employer, email);
    RevokedTeam(t, employer, email, second.actor, second.role, first.token);
    RevokedTeam(t, employer, email, second.actor, second.role, second.token);
    Revokes(t1, map[0 := i1], 1, second);
    var t2 := WithoutPending(t1, employer, email);
    RevokedTeam(t1, employer, email, second.actor, second.role, first.token);
    RevokedTeam(t1, employer, email, second.actor, second.role, second.token);
    Inserts(t2, employer, email, first.role, first.id, first.token);
    var t3 := Advance(t2, i1, 0, 0).team;
    StillUnused(t2, t3, first.id, first.token, second.token);
    Inserts(t3, employer, email, second.role, second.id, second.token);
    var w2 := World(t2, map[0 := i1][1 := i2]);
    Writes(w2, 0, t3);
    Writes(World(t3, w2.calls - {0}), 1, Advance(t3, i2, 0, 0).team);
    RunConcat(start, RevokeFirst(0, first), RevokeFirst(1, second) + rest);
    RunConcat(World(t1, map[0 := i1]), RevokeFirst(1, second), rest);
    Run2(w2, rest);
    TwoPending(Advance(t3, i2, 0, 0).team, first.id, second.id, employer, email);
  }

  lemma StillUnused(t: Team, t': Team, id: Id, token: nat, other: nat)
    requires TokenUnused(t, other) && token != other && id in t'.invites && t'.invites[id].token == token
    requires t'.invites == t.invites[id := t'.invites[id]]
    ensures TokenUnused(t', other)
  {
  }

  lemma TwoPending(t: Team, i: Id, j: Id, employer: Id, email: nat)
    requires Pending(t, i, employer, email) && Pending(t, j, employer, email) && i != j
    ensures !Inv(t)
  {
  }
}
