/** Refresh-token rotation, whatever calls are in progress and however they interleave. */
module SessionLaws {
  import opened Wrappers
  import opened Tables
  import opened Sessions

  // The invariant

  predicate Live(s: Store, id: Id) {
    id in s.rows && s.rows[id].active
  }

  ghost predicate Distinct(tokens: seq<Token>) {
    forall i, j :: 0 <= i < j < |tokens| ==> tokens[i] != tokens[j]
  }

  /** A stored hash is of a token issued for this session and not redeemed yet. */
  ghost predicate HashesUnspent(s: Store) {
    forall i :: i in s.rows && s.rows[i].hash.Some? ==>
      s.rows[i].hash.value.session == i && s.rows[i].hash.value in s.issued && s.rows[i].hash.value !in s.redeemed
  }

  ghost predicate Inv(s: Store) {
    && HashesUnspent(s)
    && Distinct(s.redeemed)
    && (forall t :: t in s.redeemed ==> t in s.issued)
    && (forall t :: t in s.issued ==> t.session in s.created)
    && (forall i :: i in s.rows ==> i in s.created)
  }

  ghost predicate CallOk(s: Store, c: Call) {
    match c
    case Rotate(token, seen) => seen.hash == Some(token)
    case StoreHash(id) => id in s.created
    case _ => true
  }

  ghost predicate WorldInv(w: World) {
    Inv(w.store) && forall t :: t in w.calls ==> CallOk(w.store, w.calls[t])
  }

  /** What no step takes back: a session that has ended stays ended, and what was redeemed stays redeemed. */
  ghost predicate Grows(s: Store, s': Store) {
    && s.created <= s'.created && s.issued <= s'.issued && s.redeemed <= s'.redeemed
    && (forall i :: i in s.created && !Live(s, i) ==> !Live(s', i))
    && (forall k :: |s.redeemed| <= k < |s'.redeemed| ==>
          s'.redeemed[k].session in s.created ==> Live(s, s'.redeemed[k].session))
  }

  ghost predicate StepOk(s: Store, o: Outcome) {
    match o
    case Read(next) => CallOk(s, next)
    case Wrote(s', rest) => Inv(s') && Grows(s, s') && (rest.Some? ==> CallOk(s', rest.value))
    case Returned => true
    case Threw => true
  }

  lemma OpeningKeeps(s: Store, user: Id, hash: Option<Token>, env: Env)
    requires Inv(s) && env.newSession !in s.created
    requires hash.Some? ==> hash.value.session == env.newSession && hash.value !in s.issued
    ensures Inv(Opened(s, user, hash, env)) && Grows(s, Opened(s, user, hash, env))
  {
  }

  lemma EndingKeeps(s: Store, user: Id)
    requires Inv(s)
    ensures var s' := s.(rows := DeactivateAll(s.rows, user)); Inv(s') && Grows(s, s')
  {
  }

  lemma LoginKeeps(s: Store, user: Id, env: Env)
    requires Inv(s)
    ensures StepOk(s, LoginCommit(s, user, env))
  {
    if LoginCommit(s, user, env).Wrote? {
      EndingKeeps(s, user);
      OpeningKeeps(s.(rows := DeactivateAll(s.rows, user)), user, Some(Token(env.newSession, env.secret)), env);
    }
  }

  lemma RotateKeeps(s: Store, token: Token, seen: Session, env: Env)
    requires Inv(s) && seen.hash == Some(token)
    ensures StepOk(s, RotateCommit(s, token, seen, env))
  {
  }

  lemma AdvanceKeeps(s: Store, c: Call, env: Env)
    requires Inv(s) && CallOk(s, c)
    ensures StepOk(s, Advance(s, c, env))
  {
    hide Inv, Grows, RotateCommit, LoginCommit;
    match c
    case Login(user) => LoginKeeps(s, user, env);
    case Rotate(token, seen) => RotateKeeps(s, token, seen, env);
    case Deactivate(id, _) => OneEndKeeps(s, id);
    case Logout(user, target) =>
      EndingKeeps(s, user);
      if target.Some? { OneEndKeeps(s, target.value); }
    case ChangePassword(user, _) => EndingKeeps(s, user);
    case OpenSession(user) => if env.newSession !in s.created { OpeningKeeps(s, user, None, env); }
    case StoreHash(id) => StoreHashKeeps(s, id, env);
    case ResetPassword(user) => EndingKeeps(s, user);
    case CleanUp(stale) => CleanUpKeeps(s, stale);
    case _ =>
  }

  lemma OneEndKeeps(s: Store, id: Id)
    requires Inv(s)
    ensures StepOk(s, DeactivateCommit(s, id))
  {
  }

  lemma StoreHashKeeps(s: Store, id: Id, env: Env)
    requires Inv(s) && id in s.created
    ensures StepOk(s, StoreHashCommit(s, id, env))
  {
  }

  lemma CleanUpKeeps(s: Store, stale: set<Id>)
    requires Inv(s)
    ensures StepOk(s, CleanUpCommit(s, stale))
  {
  }

  lemma CallStable(s: Store, s': Store, c: Call)
    requires Grows(s, s') && CallOk(s, c)
    ensures CallOk(s', c)
  {
  }

  lemma GrowsReflexive(s: Store)
    ensures Grows(s, s)
  {
  }

  lemma GrowsTransitive(s: Store, s': Store, s'': Store)
    requires Grows(s, s') && Grows(s', s'')
    ensures Grows(s, s'')
  {
    forall k | |s.redeemed| <= k < |s''.redeemed| && s''.redeemed[k].session in s.created
      ensures Live(s, s''.redeemed[k].session)
    {
      if k < |s'.redeemed| { assert s'.redeemed[k] == s''.redeemed[k]; }
    }
  }

  lemma StepKeeps(w: World, a: Action)
    requires WorldInv(w)
    ensures WorldInv(Step(w, a)) && Grows(w.store, Step(w, a).store)
  {
    hide Inv, Grows, CallOk, Advance;
    GrowsReflexive(w.store);
    match a
    case Begin(t, call) => if t !in w.calls && IsRequest(call) { RequestOk(w.store, call); }
    case Resume(t, env) =>
      if t in w.calls {
        AdvanceKeeps(w.store, w.calls[t], env);
        var o := Advance(w.store, w.calls[t], env);
        if o.Wrote? {
          forall u | u in w.calls
            ensures CallOk(o.store, w.calls[u])
          {
            CallStable(w.store, o.store, w.calls[u]);
          }
        }
      }
  }

  lemma RequestOk(s: Store, c: Call)
    requires IsRequest(c)
    ensures CallOk(s, c)
  {
  }

  lemma {:induction false} RunKeeps(w: World, actions: seq<Action>)
    requires WorldInv(w)
    ensures WorldInv(Run(w, actions)) && Grows(w.store, Run(w, actions).store)
    decreases |actions|
  {
    hide Inv, Grows, CallOk, Step;
    if actions == [] {
      GrowsReflexive(w.store);
    } else {
      var init, last := actions[..|actions| - 1], actions[|actions| - 1];
      RunKeeps(w, init);
      StepKeeps(Run(w, init), last);
      GrowsTransitive(w.store, Run(w, init).store, Run(w, actions).store);
    }
  }

  lemma {:induction false} RunConcat(w: World, actions: seq<Action>, more: seq<Action>)
    ensures Run(w, actions + more) == Run(Run(w, actions), more)
    decreases |more|
  {
    hide Step;
    if more == [] {
      assert actions + more == actions;
    } else {
      assert (actions + more)[..|actions + more| - 1] == actions + more[..|more| - 1];
      RunConcat(w, actions, more[..|more| - 1]);
    }
  }

  lemma LaterGrows(actions: seq<Action>, more: seq<Action>)
    ensures WorldInv(Run(EMPTY_WORLD, actions)) && WorldInv(Run(EMPTY_WORLD, actions + more))
    ensures Grows(Run(EMPTY_WORLD, actions).store, Run(EMPTY_WORLD, actions + more).store)
  {
    hide Grows, Step;
    RunKeeps(EMPTY_WORLD, actions);
    RunConcat(EMPTY_WORLD, actions, more);
    RunKeeps(Run(EMPTY_WORLD, actions), more);
  }

  // The laws

  /** Each refresh token is redeemed by at most one call. */
  lemma RedeemedOnce(actions: seq<Action>, i: nat, j: nat)
    requires i < j < |Run(EMPTY_WORLD, actions).store.redeemed|
    ensures Run(EMPTY_WORLD, actions).store.redeemed[i] != Run(EMPTY_WORLD, actions).store.redeemed[j]
  {
    hide Step;
    RunKeeps(EMPTY_WORLD, actions);
  }

  /** A session that has ended, or whose row is gone, never becomes active again, and none of its tokens is redeemed. */
  lemma EndedForever(actions: seq<Action>, more: seq<Action>, id: Id, k: nat)
    requires id in Run(EMPTY_WORLD, actions).store.created && !Live(Run(EMPTY_WORLD, actions).store, id)
    ensures var s, later := Run(EMPTY_WORLD, actions).store, Run(EMPTY_WORLD, actions + more).store;
            && !Live(later, id)
            && (|s.redeemed| <= k < |later.redeemed| ==> later.redeemed[k].session != id)
  {
    hide Step;
    LaterGrows(actions, more);
  }

  lemma RedeemedCreated(s: Store, token: Token)
    requires Inv(s) && token in s.redeemed
    ensures token.session in s.created
  {
  }

  lemma Reachable(actions: seq<Action>)
    ensures WorldInv(Run(EMPTY_WORLD, actions))
  {
    hide Step;
    RunKeeps(EMPTY_WORLD, actions);
  }

  lemma RedeemedSession(s: Store, token: Token)
    requires Inv(s) && token in s.redeemed && token.session in s.rows
    ensures s.rows[token.session].hash != Some(token)
  {
  }

  /** Replaying a redeemed token ends its session, whoever holds the newer token. */
  lemma ReplayEndsSession(actions: seq<Action>, token: Token, env: Env)
    requires token in Run(EMPTY_WORLD, actions).store.redeemed
    ensures var s := Run(EMPTY_WORLD, actions).store;
            && !Live(Alone(s, Refresh(token), env).0, token.session) && !Alone(s, Refresh(token), env).1
  {
    hide Step;
    RunKeeps(EMPTY_WORLD, actions);
    var s := Run(EMPTY_WORLD, actions).store;
    if Live(s, token.session) {
      RedeemedSession(s, token);
      assert Alone(s, Refresh(token), env) == Alone(s, Deactivate(token.session, true), env);
    }
  }

  /** The same when other calls run in between: once the replay has read its row, its next step ends the session. */
  lemma ReplayEndsSessionInterleaved(actions: seq<Action>, between: seq<Action>, t: nat, token: Token, env: Env,
                                     env': Env)
    requires token in Run(EMPTY_WORLD, actions).store.redeemed
    requires t in Run(EMPTY_WORLD, actions).calls && Run(EMPTY_WORLD, actions).calls[t] == Refresh(token)
    requires forall a :: a in between ==> a.t != t
    ensures var w := Run(EMPTY_WORLD, actions + [Resume(t, env)]);
            !Live(Step(Run(w, between), Resume(t, env')).store, token.session)
  {
    hide Inv, Grows;
    var w0 := Run(EMPTY_WORLD, actions);
    var w1 := Run(EMPTY_WORLD, actions + [Resume(t, env)]);
    assert (actions + [Resume(t, env)])[..|actions|] == actions;
    assert w1 == Step(w0, Resume(t, env));
    Reachable(actions);
    Reachable(actions + [Resume(t, env)]);
    RedeemedCreated(w0.store, token);
    if Live(w0.store, token.session) {
      RedeemedSession(w0.store, token);
      assert w1.calls[t] == Deactivate(token.session, true);
      Untouched(w1, between, t);
    } else {
      EndedIn(w0.store, w1, between, token.session);
      var w2 := Run(w1, between);
      RunKeeps(w1, between);
      StepKeeps(w2, Resume(t, env'));
      EndedStays(w2.store, Step(w2, Resume(t, env')).store, token.session);
    }
  }

  lemma EndedStays(s: Store, s': Store, id: Id)
    requires Grows(s, s') && id in s.created && !Live(s, id)
    ensures id in s'.created && !Live(s', id)
  {
  }

  lemma EndedIn(s: Store, w: World, between: seq<Action>, id: Id)
    requires WorldInv(w) && w.store == s && id in s.created && !Live(s, id)
    ensures id in Run(w, between).store.created && !Live(Run(w, between).store, id)
  {
    hide Inv, Grows, Step;
    RunKeeps(w, between);
    EndedStays(s, Run(w, between).store, id);
  }

  /** A call not stepped keeps its place. */
  lemma {:induction false} Untouched(w: World, actions: seq<Action>, t: nat)
    requires t in w.calls && forall a :: a in actions ==> a.t != t
    ensures t in Run(w, actions).calls && Run(w, actions).calls[t] == w.calls[t]
    decreases |actions|
  {
    hide Advance;
    if actions != [] {
      assert actions[|actions| - 1] in actions;
      Untouched(w, actions[..|actions| - 1], t);
    }
  }

  // One request after another

  ghost predicate OneActive(rows: map<Id, Session>) {
    forall i, j :: i in rows && j in rows && rows[i].active && rows[j].active && rows[i].user == rows[j].user ==> i == j
  }

  ghost predicate Fresh(s: Store, c: Call) {
    c.OpenSession? ==> forall i :: i in s.rows && s.rows[i].user == c.user ==> !s.rows[i].active
  }

  lemma StepOneActive(s: Store, c: Call, env: Env)
    requires OneActive(s.rows) && Fresh(s, c)
    ensures var o := Advance(s, c, env);
            && OneActive(After(s, o).rows)
            && (o.Read? ==> Fresh(s, o.next)) && (o.Wrote? && o.rest.Some? ==> Fresh(o.store, o.rest.value))
  {
    match c
    case Login(user) => LoginOneActive(s.rows, user, env);
    case CleanUp(stale) =>
    case _ =>
  }

  lemma LoginOneActive(rows: map<Id, Session>, user: Id, env: Env)
    requires OneActive(rows)
    ensures forall row: Session :: row.user == user ==> OneActive(DeactivateAll(rows, user)[env.newSession := row])
  {
  }

  function After(s: Store, o: Outcome): Store {
    if o.Wrote? then o.store else s
  }

  lemma {:induction false} AloneOneActive(s: Store, c: Call, env: Env)
    requires OneActive(s.rows) && Fresh(s, c)
    ensures OneActive(Alone(s, c, env).0.rows)
    decreases StepsLeft(c)
  {
    hide OneActive, Fresh;
    StepOneActive(s, c, env);
    match Advance(s, c, env)
    case Read(next) => AloneOneActive(s, next, env);
    case Wrote(s', Some(rest)) => AloneOneActive(s', rest, env);
    case _ =>
  }

  /** Served one after another, requests never leave a user with two active sessions. */
  lemma {:induction false} OneActiveSession(requests: seq<Request>)
    ensures OneActive(Serial(EMPTY_STORE, requests).rows)
    decreases |requests|
  {
    hide Alone;
    if requests != [] {
      var init, last := requests[..|requests| - 1], requests[|requests| - 1];
      OneActiveSession(init);
      if IsRequest(last.call) { AloneOneActive(Serial(EMPTY_STORE, init), last.call, last.env); }
    }
  }

  // When two sessions are active

  /** A forced password change opens its session although the user has an active one again. */
  ghost predicate OpensBeside(s: Store, c: Call) {
    c.OpenSession? && exists i :: i in s.rows && s.rows[i].user == c.user && s.rows[i].active
  }

  /** From any store with one active session for each user, the next step keeps it so if and only if it does not open
      a session beside an active one. */
  lemma OneActiveKeptIff(s: Store, c: Call, env: Env)
    requires Inv(s) && OneActive(s.rows)
    ensures OneActive(After(s, Advance(s, c, env)).rows) <==> (Advance(s, c, env).Wrote? ==> !OpensBeside(s, c))
  {
    if Fresh(s, c) {
      StepOneActive(s, c, env);
    } else {
      var i :| i in s.rows && s.rows[i].user == c.user && s.rows[i].active;
      var s' := After(s, Advance(s, c, env));
      if s' != s {
        assert i != env.newSession && s'.rows[i] == s.rows[i] && s'.rows[env.newSession].active;
      }
    }
  }

  /** The world before the `i`th action of a run from an empty table. */
  function Before(actions: seq<Action>, i: nat): World
    requires i <= |actions|
  {
    Run(EMPTY_WORLD, actions[..i])
  }

  ghost predicate OpensSecond(w: World, a: Action) {
    a.Resume? && a.t in w.calls && Advance(w.store, w.calls[a.t], a.env).Wrote? && OpensBeside(w.store, w.calls[a.t])
  }

  lemma StepOneActiveIff(w: World, a: Action)
    requires WorldInv(w) && OneActive(w.store.rows)
    ensures OneActive(Step(w, a).store.rows) <==> !OpensSecond(w, a)
  {
    hide Inv, CallOk, OneActive, OpensBeside, Advance;
    if a.Resume? && a.t in w.calls {
      OneActiveKeptIff(w.store, w.calls[a.t], a.env);
      StepStore(w, a.t, a.env);
    }
  }

  lemma StepStore(w: World, t: nat, env: Env)
    requires t in w.calls
    ensures Step(w, Resume(t, env)).store == After(w.store, Advance(w.store, w.calls[t], env))
  {
    hide Advance;
  }

  lemma BeforeNext(actions: seq<Action>, i: nat)
    requires i < |actions|
    ensures Before(actions, i + 1) == Step(Before(actions, i), actions[i]) && WorldInv(Before(actions, i))
  {
    hide Step, Inv, CallOk;
    Reachable(actions[..i]);
    assert actions[..i + 1][..i] == actions[..i];
  }

  lemma {:induction false} OneActiveSoFar(actions: seq<Action>, n: nat)
    requires n <= |actions|
    ensures (forall i :: 0 <= i <= n ==> OneActive(Before(actions, i).store.rows))
       <==> (forall i :: 0 <= i < n ==> !OpensSecond(Before(actions, i), actions[i]))
  {
    hide OneActive, OpensSecond, Before, Step, WorldInv;
    if n == 0 {
      EmptyOneActive(actions);
    } else {
      OneActiveSoFar(actions, n - 1);
      BeforeNext(actions, n - 1);
      if OneActive(Before(actions, n - 1).store.rows) { StepOneActiveIff(Before(actions, n - 1), actions[n - 1]); }
    }
  }

  lemma EmptyOneActive(actions: seq<Action>)
    ensures OneActive(Before(actions, 0).store.rows)
  {
  }

  /** Over any interleaved run no user ever has two active sessions, if and only if no forced password change opens its
      session while the user has an active one. */
  lemma OneActiveSessionIff(actions: seq<Action>)
    ensures (forall i :: 0 <= i <= |actions| ==> OneActive(Before(actions, i).store.rows))
       <==> (forall i :: 0 <= i < |actions| ==> !OpensSecond(Before(actions, i), actions[i]))
  {
    hide OneActive, OpensSecond, Before;
    OneActiveSoFar(actions, |actions|);
  }

  /** The user signs in between the password change and the session it opens. */
  function LoginDuringChange(user: Id, login: Env, opening: Env): seq<Action> {
    [Begin(0, ChangePassword(user, true)), Resume(0, opening),
     Begin(1, Login(user)), Resume(1, login), Resume(0, opening)]
  }

  lemma Run5(w: World, s: seq<Action>)
    requires |s| == 5
    ensures Run(w, s) == Step(Step(Step(Step(Step(w, s[0]), s[1]), s[2]), s[3]), s[4])
  {
    hide Step;
    assert s[..4][..3] == s[..3] && s[..3][..2] == s[..2] && s[..2][..1] == s[..1] && s[..1][..0] == [];
    assert Run(w, s[..1]) == Step(Run(w, []), s[0]);
    assert Run(w, s[..2]) == Step(Run(w, s[..1]), s[1]);
    assert Run(w, s[..3]) == Step(Run(w, s[..2]), s[2]);
    assert Run(w, s[..4]) == Step(Run(w, s[..3]), s[3]);
  }

  /** From every store, that leaves the user with two active sessions. */
  lemma LoginDuringChangeMakesTwo(s: Store, user: Id, login: Env, opening: Env)
    requires login.authorized && opening.authorized && login.newSession != opening.newSession
    requires login.newSession !in s.created && opening.newSession !in s.created
    requires Token(login.newSession, login.secret) !in s.issued
    ensures var rows := Run(World(s, map[]), LoginDuringChange(user, login, opening)).store.rows;
            && login.newSession in rows && rows[login.newSession].active && rows[login.newSession].user == user
            && opening.newSession in rows && rows[opening.newSession].active && rows[opening.newSession].user == user
            && !OneActive(rows)
  {
    hide DeactivateAll;
    var w, actions := World(s, map[]), LoginDuringChange(user, login, opening);
    var ended := s.(rows := DeactivateAll(s.rows, user));
    var open := map[0 := OpenSession(user)];
    var signedIn :=
      Opened(ended.(rows := DeactivateAll(ended.rows, user)), user, Some(Token(login.newSession, login.secret)), login);
    Run5(w, actions);
    var w1, w2 := Step(w, actions[0]), World(ended, open);
    assert w1 == World(s, map[0 := ChangePassword(user, true)]);
    assert Step(w1, actions[1]) == w2 by { assert w1.calls[0 := OpenSession(user)] == open; }
    var w3 := World(ended, open[1 := Login(user)]);
    assert Step(w2, actions[2]) == w3;
    assert Step(w3, actions[3]) == World(signedIn, open) by { assert w3.calls - {1} == open; }
    var done := Step(World(signedIn, open), actions[4]).store;
    assert done == Opened(signedIn, user, None, opening);
  }
}
