/**
 The session rows of src/auth/auth.service.ts. Secrets are fresh, and a stored
 hash matches only the token it was made from.
 */
module Sessions {
  import opened Wrappers
  import opened Tables

  /** `<session id>.<random secret>`. */
  datatype Token = Token(session: Id, secret: nat)

  /** `hash` is None while the column holds the empty string. */
  datatype Session = Session(user: Id, hash: Option<Token>, active: bool, createdAt: Instant)

  /** The table, with the ids and tokens ever made and the tokens redeemed, in order. */
  datatype Store = Store(rows: map<Id, Session>, created: set<Id>, issued: set<Token>, redeemed: seq<Token>)

  const EMPTY_STORE := Store(map[], {}, {}, [])

  const LIFETIME: Instant := 30 * 24 * 60 * 60 * 1000

  datatype Call =
    | Login(user: Id)
    | Refresh(token: Token)
    | Rotate(token: Token, seen: Session)
    | Deactivate(session: Id, throws: bool)
    | Revoke(user: Id, session: Id)
    | Logout(user: Id, target: Option<Id>)
    | ChangePassword(user: Id, first: bool)
    | OpenSession(user: Id)
    | StoreHash(session: Id)
    | ResetPassword(user: Id)
    | CleanUp(stale: set<Id>)

  /** What a step takes from outside the table. */
  datatype Env = Env(now: Instant, authorized: bool, newSession: Id, secret: nat)

  datatype Outcome =
    | Read(next: Call)
    | Wrote(store: Store, rest: Option<Call>)
    | Returned
    | Threw

  function DeactivateAll(rows: map<Id, Session>, user: Id): map<Id, Session> {
    map i | i in rows :: if rows[i].user == user && rows[i].active then rows[i].(active := false) else rows[i]
  }

  function Opened(s: Store, user: Id, hash: Option<Token>, env: Env): Store {
    s.(rows := s.rows[env.newSession := Session(user, hash, true, env.now)],
       created := s.created + {env.newSession},
       issued := if hash.Some? then s.issued + {hash.value} else s.issued)
  }

  /** One transaction: the old sessions end and a new one begins with its token. */
  function LoginCommit(s: Store, user: Id, env: Env): Outcome {
    var token := Token(env.newSession, env.secret);
    if !env.authorized || env.newSession in s.created || token in s.issued then Threw
    else Wrote(Opened(s.(rows := DeactivateAll(s.rows, user)), user, Some(token), env), None)
  }

  function RefreshRead(s: Store, token: Token, env: Env): Outcome {
    if token.session !in s.rows || !s.rows[token.session].active then Threw
    else
      var session := s.rows[token.session];
      if session.createdAt + LIFETIME < env.now then Read(Deactivate(token.session, true))
      else if session.hash != Some(token) then Read(Deactivate(token.session, true))
      else if !env.authorized then Threw
      else Read(Rotate(token, session))
  }

  /** Compare-and-swap on the stored hash. */
  function RotateCommit(s: Store, token: Token, seen: Session, env: Env): Outcome {
    var id, successor := token.session, Token(token.session, env.secret);
    if id !in s.rows || !s.rows[id].active || s.rows[id].hash != seen.hash || successor in s.issued then Threw
    else
      Wrote(s.(rows := s.rows[id := s.rows[id].(hash := Some(successor))], issued := s.issued + {successor},
               redeemed := s.redeemed + [token]), None)
  }

  function DeactivateCommit(s: Store, id: Id): Outcome {
    if id !in s.rows then Threw else Wrote(s.(rows := s.rows[id := s.rows[id].(active := false)]), None)
  }

  function RevokeRead(s: Store, user: Id, id: Id): Outcome {
    if id !in s.rows || s.rows[id].user != user then Threw
    else if s.rows[id].active then Read(Deactivate(id, false)) else Returned
  }

  function LogoutCommit(s: Store, user: Id, target: Option<Id>): Outcome {
    if target.None? then Wrote(s.(rows := DeactivateAll(s.rows, user)), None)
    else if target.value in s.rows && s.rows[target.value].user == user && s.rows[target.value].active then
      Wrote(s.(rows := s.rows[target.value := s.rows[target.value].(active := false)]), None)
    else Returned
  }

  /** The first, forced change opens a session in two further writes, outside the transaction. */
  function ChangePasswordCommit(s: Store, user: Id, first: bool, env: Env): Outcome {
    if !env.authorized then Threw
    else Wrote(s.(rows := DeactivateAll(s.rows, user)), if first then Some(OpenSession(user)) else None)
  }

  function OpenSessionCommit(s: Store, user: Id, env: Env): Outcome {
    if env.newSession in s.created then Threw
    else Wrote(Opened(s, user, None, env), Some(StoreHash(env.newSession)))
  }

  function StoreHashCommit(s: Store, id: Id, env: Env): Outcome {
    var token := Token(id, env.secret);
    if id !in s.rows || token in s.issued then Threw
    else Wrote(s.(rows := s.rows[id := s.rows[id].(hash := Some(token))], issued := s.issued + {token}), None)
  }

  function ResetPasswordCommit(s: Store, user: Id, env: Env): Outcome {
    if !env.authorized then Threw else Wrote(s.(rows := DeactivateAll(s.rows, user)), None)
  }

  /** The nightly job deletes sessions that are inactive and old. */
  function CleanUpCommit(s: Store, stale: set<Id>): Outcome {
    Wrote(s.(rows := map i | i in s.rows && (i !in stale || s.rows[i].active) :: s.rows[i]), None)
  }

  function Advance(s: Store, c: Call, env: Env): Outcome {
    match c
    case Login(user) => LoginCommit(s, user, env)
    case Refresh(token) => RefreshRead(s, token, env)
    case Rotate(token, seen) => RotateCommit(s, token, seen, env)
    case Deactivate(id, _) => DeactivateCommit(s, id)
    case Revoke(user, id) => RevokeRead(s, user, id)
    case Logout(user, target) => LogoutCommit(s, user, target)
    case ChangePassword(user, first) => ChangePasswordCommit(s, user, first, env)
    case OpenSession(user) => OpenSessionCommit(s, user, env)
    case StoreHash(id) => StoreHashCommit(s, id, env)
    case ResetPassword(user) => ResetPasswordCommit(s, user, env)
    case CleanUp(stale) => CleanUpCommit(s, stale)
  }

  predicate IsRequest(c: Call) {
    c.Login? || c.Refresh? || c.Revoke? || c.Logout? || c.ChangePassword? || c.ResetPassword? || c.CleanUp?
  }

  datatype World = World(store: Store, calls: map<nat, Call>)

  datatype Action =
    | Begin(t: nat, call: Call)
    | Resume(t: nat, env: Env)

  function Step(w: World, a: Action): World {
    match a
    case Begin(t, call) => if t in w.calls || !IsRequest(call) then w else w.(calls := w.calls[t := call])
    case Resume(t, env) =>
      if t !in w.calls then w
      else
        match Advance(w.store, w.calls[t], env)
        case Read(next) => w.(calls := w.calls[t := next])
        case Wrote(store, Some(rest)) => World(store, w.calls[t := rest])
        case Wrote(store, None) => World(store, w.calls - {t})
        case Returned => w.(calls := w.calls - {t})
        case Threw => w.(calls := w.calls - {t})
  }

  function Run(w: World, actions: seq<Action>): World {
    if actions == [] then w else Step(Run(w, actions[..|actions| - 1]), actions[|actions| - 1])
  }

  const EMPTY_WORLD := World(EMPTY_STORE, map[])

  /** One call with nothing beside it; a session opened on the way takes `env` again. */
  function Alone(s: Store, c: Call, env: Env): (Store, bool)
    decreases StepsLeft(c)
  {
    match Advance(s, c, env)
    case Read(next) => Alone(s, next, env)
    case Wrote(store, Some(rest)) => Alone(store, rest, env)
    case Wrote(store, None) => (store, !(c.Deactivate? && c.throws))
    case Returned => (s, true)
    case Threw => (s, false)
  }

  function StepsLeft(c: Call): nat {
    match c
    case Refresh(_) => 2
    case Revoke(_, _) => 2
    case ChangePassword(_, _) => 3
    case OpenSession(_) => 2
    case _ => 1
  }

  datatype Request = Request(call: Call, env: Env)

  /** Requests one after another. */
  function Serial(s: Store, requests: seq<Request>): Store {
    if requests == [] then s
    else
      var before, last := Serial(s, requests[..|requests| - 1]), requests[|requests| - 1];
      if IsRequest(last.call) then Alone(before, last.call, last.env).0 else before
  }
}

module AuthService {
  import opened Wrappers
  import opened Tables
  import opened Sessions

  /** Session operations, statement by statement; each method is one call with nothing beside it. */
  class AuthService {
    var rows: map<Id, Session>
    var created: set<Id>
    var issued: set<Token>
    var redeemed: seq<Token>

    function View(): Store
      reads this
    {
      Store(rows, created, issued, redeemed)
    }

    constructor ()
      ensures View() == EMPTY_STORE
    {
      rows, created, issued, redeemed := map[], {}, {}, [];
    }

    /** `updateMany` of a user's active sessions. */
    method EndSessions(user: Id)
      modifies `rows
      ensures rows == DeactivateAll(old(rows), user)
    {
      rows :=
        map i | i in rows :: if rows[i].user == user && rows[i].active then rows[i].(active := false) else rows[i];
    }

    method EndSession(id: Id)
      requires id in rows
      modifies `rows
      ensures rows == old(rows)[id := old(rows)[id].(active := false)]
    {
      rows := rows[id := rows[id].(active := false)];
    }

    method Login(user: Id, env: Env) returns (ok: bool)
      modifies this
      ensures (View(), ok) == Alone(old(View()), Call.Login(user), env)
    {
      if !env.authorized { return false; }
      var token := Token(env.newSession, env.secret);
      if env.newSession in created || token in issued { return false; }
      EndSessions(user);
      rows := rows[env.newSession := Session(user, None, true, env.now)];
      created := created + {env.newSession};
      rows := rows[env.newSession := rows[env.newSession].(hash := Some(token))];
      issued := issued + {token};
      assert old(DeactivateAll(rows, user))[env.newSession := Session(user, None, true, env.now)]
             [env.newSession := Session(user, Some(token), true, env.now)]
          == old(DeactivateAll(rows, user))[env.newSession := Session(user, Some(token), true, env.now)];
      return true;
    }

    method Refresh(token: Token, env: Env) returns (ok: bool)
      modifies this
      ensures (View(), ok) == Alone(old(View()), Call.Refresh(token), env)
    {
      var id := token.session;
      if id !in rows || !rows[id].active { return false; }
      var session := rows[id];
      if session.createdAt + LIFETIME < env.now {
        EndSession(id);
        return false;
      }
      if session.hash != Some(token) {
        EndSession(id);
        return false;
      }
      if !env.authorized { return false; }
      var successor := Token(id, env.secret);
      var count := 0;
      if rows[id].active && rows[id].hash == session.hash && successor !in issued {
        rows := rows[id := rows[id].(hash := Some(successor))];
        issued := issued + {successor};
        redeemed := redeemed + [token];
        count := 1;
      }
      return count == 1;
    }

    method RevokeSession(user: Id, id: Id, env: Env) returns (ok: bool)
      modifies `rows
      ensures (View(), ok) == Alone(old(View()), Revoke(user, id), env)
    {
      if id !in rows || rows[id].user != user { return false; }
      if rows[id].active { EndSession(id); }
      return true;
    }

    method Logout(user: Id, sessionId: Option<Id>, refreshToken: Option<Token>, env: Env)
      modifies `rows
      ensures (View(), true)
           == Alone(old(View()), Call.Logout(user, if sessionId.Some? then sessionId
                                                   else if refreshToken.Some? then Some(refreshToken.value.session)
                                                   else None), env)
    {
      var refreshSessionId := if refreshToken.Some? then Some(refreshToken.value.session) else None;
      var target := if sessionId.Some? then sessionId else refreshSessionId;
      if target.Some? {
        if target.value in rows && rows[target.value].user == user && rows[target.value].active {
          EndSession(target.value);
        }
      } else {
        EndSessions(user);
      }
    }

    method ChangePassword(user: Id, firstChange: bool, env: Env) returns (ok: bool)
      modifies this
      ensures (View(), ok) == Alone(old(View()), Call.ChangePassword(user, firstChange), env)
    {
      if !env.authorized { return false; }
      EndSessions(user);
      if !firstChange { return true; }
      if env.newSession in created { return false; }
      rows := rows[env.newSession := Session(user, None, true, env.now)];
      created := created + {env.newSession};
      var token := Token(env.newSession, env.secret);
      assert old(Alone(View(), Call.ChangePassword(user, firstChange), env))
          == Alone(View(), StoreHash(env.newSession), env);
      if token in issued { return false; }
      rows := rows[env.newSession := rows[env.newSession].(hash := Some(token))];
      issued := issued + {token};
      return true;
    }

    method ResetPassword(user: Id, env: Env) returns (ok: bool)
      modifies `rows
      ensures (View(), ok) == Alone(old(View()), Call.ResetPassword(user), env)
    {
      if !env.authorized { return false; }
      EndSessions(user);
      return true;
    }
  }
}
