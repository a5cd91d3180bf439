/** What each session operation does with nothing beside it, written out row by row. */
module SessionEffects {
  import opened Wrappers
  import opened Tables
  import opened Sessions

  /** The user's sessions are inactive, their rows otherwise as before; the sessions of others are untouched. */
  ghost predicate EndsAll(rows: map<Id, Session>, rows': map<Id, Session>, user: Id) {
    && rows'.Keys == rows.Keys
    && (forall i: Id :: i in rows && rows[i].user == user ==> rows'[i] == rows[i].(active := false))
    && (forall i: Id :: i in rows && rows[i].user != user ==> rows'[i] == rows[i])
  }

  lemma DeactivateEndsAll(rows: map<Id, Session>, user: Id)
    ensures EndsAll(rows, DeactivateAll(rows, user), user)
  {
  }

  /** Only its end ends a session: only this row, and only its flag. */
  ghost function Ended(s: Store, id: Id): Store
    requires id in s.rows
  {
    s.(rows := s.rows[id := s.rows[id].(active := false)])
  }

  /** A login succeeds if and only if it is authorized with an unused id and token: it ends the user's sessions and
      opens one. */
  lemma LoginEffect(s: Store, user: Id, env: Env)
    ensures var (s', ok) := Alone(s, Login(user), env);
            var token := Token(env.newSession, env.secret);
            && (ok <==> env.authorized && env.newSession !in s.created && token !in s.issued)
            && (!ok ==> s' == s)
            && (ok ==>
                  && s'.redeemed == s.redeemed
                  && s'.created == s.created + {env.newSession} && s'.issued == s.issued + {token}
                  && env.newSession in s'.rows
                  && s'.rows[env.newSession] == Session(user, Some(token), true, env.now)
                  && s'.rows.Keys == s.rows.Keys + {env.newSession}
                  && EndsAll(s.rows - {env.newSession}, s'.rows - {env.newSession}, user))
  {
  }

  /** A refresh succeeds if and only if the session exists, is active, stores this token, was opened at most 30 days
      ago, the user is authorized and the successor unused. Then the row stores the successor and nothing else in it
      and no other row changes. Otherwise an active session whose token is wrong or which is older ends, and only
      that. */
  lemma RefreshEffect(s: Store, token: Token, env: Env)
    ensures var (s', ok) := Alone(s, Refresh(token), env);
            var id, successor := token.session, Token(token.session, env.secret);
            && (ok <==>
                && id in s.rows && s.rows[id].active && s.rows[id].hash == Some(token)
                && env.now <= s.rows[id].createdAt + 2592000000
                && env.authorized && successor !in s.issued)
            && (ok ==>
                  s' == s.(rows := s.rows[id := s.rows[id].(hash := Some(successor))],
                           issued := s.issued + {successor}, redeemed := s.redeemed + [token]))
            && (!ok ==>
                  s' == if id in s.rows && s.rows[id].active
                           && (s.rows[id].hash != Some(token) || env.now > s.rows[id].createdAt + 2592000000)
                        then Ended(s, id) else s)
  {
  }

  /** A revocation succeeds if and only if the session is the user's own, and leaves exactly that one inactive. */
  lemma RevokeEffect(s: Store, user: Id, id: Id, env: Env)
    ensures var (s', ok) := Alone(s, Revoke(user, id), env);
            && (ok <==> id in s.rows && s.rows[id].user == user)
            && (!ok ==> s' == s)
            && (ok ==> s' == Ended(s, id) && !s'.rows[id].active)
  {
    if id in s.rows && !s.rows[id].active { assert s.rows[id := s.rows[id].(active := false)] == s.rows; }
  }

  /** A logout always succeeds: of a named session it leaves that one inactive if it is the user's, without a name all
      of the user's. */
  lemma LogoutEffect(s: Store, user: Id, target: Option<Id>, env: Env)
    ensures var (s', ok) := Alone(s, Logout(user, target), env);
            && ok && s' == s.(rows := s'.rows)
            && (target.None? ==> EndsAll(s.rows, s'.rows, user))
            && (target.Some? ==>
                  s' == if target.value in s.rows && s.rows[target.value].user == user then Ended(s, target.value)
                        else s)
  {
    if target.Some? && target.value in s.rows && !s.rows[target.value].active {
      assert s.rows[target.value := s.rows[target.value].(active := false)] == s.rows;
    }
  }

  /** A reset succeeds if and only if it is authorized, and then no session of the user is active. */
  lemma ResetPasswordEffect(s: Store, user: Id, env: Env)
    ensures var (s', ok) := Alone(s, ResetPassword(user), env);
            && (ok <==> env.authorized)
            && s' == s.(rows := s'.rows)
            && (!ok ==> s' == s)
            && (ok ==>
                  EndsAll(s.rows, s'.rows, user)
                  && forall i: Id :: i in s'.rows && s'.rows[i].user == user ==> !s'.rows[i].active)
  {
  }

  /** A password change ends the user's sessions if and only if it is authorized. The first, forced one then opens a
      session if its id is unused, which has no token until an unused one is stored, and succeeds if it is. */
  lemma ChangePasswordEffect(s: Store, user: Id, first: bool, env: Env)
    ensures var (s', ok) := Alone(s, ChangePassword(user, first), env);
            var id, token := env.newSession, Token(env.newSession, env.secret);
            var opens := first && id !in s.created;
            && (ok <==> env.authorized && (first ==> id !in s.created && token !in s.issued))
            && (!env.authorized ==> s' == s)
            && (env.authorized ==>
                  && s'.redeemed == s.redeemed
                  && s'.created == (if opens then s.created + {id} else s.created)
                  && s'.issued == (if opens && ok then s.issued + {token} else s.issued)
                  && (opens ==>
                        && id in s'.rows && s'.rows.Keys == s.rows.Keys + {id}
                        && s'.rows[id] == Session(user, if ok then Some(token) else None, true, env.now)
                        && EndsAll(s.rows - {id}, s'.rows - {id}, user))
                  && (!opens ==> EndsAll(s.rows, s'.rows, user)))
  {
    if env.authorized && first {
      var ended := s.(rows := DeactivateAll(s.rows, user));
      assert Alone(s, ChangePassword(user, first), env) == Alone(ended, OpenSession(user), env);
      if env.newSession !in s.created {
        var begun := Opened(ended, user, None, env);
        assert Alone(ended, OpenSession(user), env) == Alone(begun, StoreHash(env.newSession), env);
      }
    }
  }

  /** The nightly clean-up deletes exactly the inactive sessions among the old ones and changes none that stay. */
  lemma CleanUpEffect(s: Store, stale: set<Id>, env: Env)
    ensures var (s', ok) := Alone(s, CleanUp(stale), env);
            && ok && s' == s.(rows := s'.rows)
            && (forall i: Id :: i in s'.rows <==> i in s.rows && !(i in stale && !s.rows[i].active))
            && (forall i: Id :: i in s'.rows ==> s'.rows[i] == s.rows[i])
  {
  }
}
