/** Accounts and sign-in sessions: a password check that runs outside the write lock, and the
    write transactions that change an account or revoke its sessions. */
module Accounts {
  import opened Wrappers

  /** Accounts are keyed by normalised username, which is unique and never changes. */
  type UserId = nat
  type SessionId = nat
  type Hash = nat
  type Password = string

  datatype Role = Admin | Member

  datatype User = User(hash: Hash, role: Role, active: bool, mustChange: bool)

  datatype Session = Session(
    user: UserId,
    csrf: nat,
    revoked: bool,
    activityAt: int,
    idleExpires: int,
    absoluteExpires: int,
    reauthenticatedAt: Option<int>)

  datatype Db = Db(users: map<UserId, User>, sessions: map<SessionId, Session>)

  /** What a signed-in caller holds; it may be stale by the time it is used. */
  datatype Caller = Caller(session: SessionId, user: UserId, csrf: nat)

  datatype Limits = Limits(idle: nat, absolute: nat)

  const REAUTHENTICATION_SECONDS := 300

  predicate SessionValid(db: Db, id: SessionId, now: int) {
    && id in db.sessions
    && var s := db.sessions[id];
    && !s.revoked && s.idleExpires > now && s.absoluteExpires > now
    && s.user in db.users && db.users[s.user].active
  }

  /** _actor: the caller's session, read again inside the transaction. */
  predicate ActorAllowed(db: Db, c: Caller, now: int, admin: bool, recent: bool, allowForced: bool) {
    && SessionValid(db, c.session, now)
    && var s := db.sessions[c.session];
    && s.user == c.user && s.csrf == c.csrf
    && (allowForced || !db.users[s.user].mustChange)
    && (admin ==> db.users[s.user].role == Admin)
    && (recent ==> s.reauthenticatedAt.Some?
                   && 0 <= now - s.reauthenticatedAt.value < REAUTHENTICATION_SECONDS)
  }

  function Revoked(s: Session): Session {
    s.(revoked := true, reauthenticatedAt := None)
  }

  function Revocable(sessions: map<SessionId, Session>, user: UserId, except: Option<SessionId>): set<SessionId> {
    set id | id in sessions && sessions[id].user == user && !sessions[id].revoked && Some(id) != except
  }

  function RevokeSessions(sessions: map<SessionId, Session>, user: UserId, except: Option<SessionId>)
    : map<SessionId, Session>
  {
    map id | id in sessions ::
      if sessions[id].user == user && !sessions[id].revoked && Some(id) != except
      then Revoked(sessions[id]) else sessions[id]
  }

  function NewSession(user: UserId, csrf: nat, now: int, limits: Limits): Session {
    Session(user, csrf, false, now, now + limits.idle, now + limits.absolute, None)
  }

  function ActiveAdmins(users: map<UserId, User>): set<UserId> {
    set u | u in users && users[u].role == Admin && users[u].active
  }

  // ---------- Write transactions: None when refused ----------

  function CreateInitialAdmin(db: Db, id: UserId, hash: Hash): Option<Db> {
    if db.users != map[] then None
    else Some(db.(users := map[id := User(hash, Admin, true, false)]))
  }

  /** reset_admin. Without a name there must be exactly one active administrator. */
  function ResetAdmin(db: Db, name: Option<UserId>, hash: Hash, recover: bool, mustChange: bool): Option<(Db, UserId)> {
    var admins := ActiveAdmins(db.users);
    if name.None? && |admins| != 1 then None
    else if name.Some? && name.value !in db.users then
      if db.users != map[] then None
      else Some((db.(users := map[name.value := User(hash, Admin, true, mustChange)],
                     sessions := RevokeSessions(db.sessions, name.value, None)), name.value))
    else
      var id := if name.Some? then name.value else Only(admins);
      if (db.users[id].role != Admin || !db.users[id].active) && !recover then None
      else Some((db.(users := db.users[id := User(hash, Admin, true, mustChange)],
                     sessions := RevokeSessions(db.sessions, id, None)), id))
  }

  function Only(s: set<UserId>): (u: UserId)
    requires |s| == 1
    ensures s == {u}
  {
    OnlyIsUnique(s);
    var u :| u in s; u
  }

  lemma OnlyIsUnique(s: set<UserId>)
    requires |s| == 1
    ensures exists u :: u in s
    ensures forall u, v :: u in s && v in s ==> u == v
    ensures forall u :: u in s ==> s == {u}
  {
    assert s != {};
    forall u | u in s ensures s == {u} {
      assert |s - {u}| == 0;
    }
  }

  predicate LoginAccepted(db: Db, name: UserId, candidate: Option<Hash>, verified: bool, blocked: bool) {
    !blocked && verified && name in db.users && db.users[name].active && Some(db.users[name].hash) == candidate
  }

  /** The second phase of a login: the account must still be what was checked. */
  function CommitLogin(db: Db, name: UserId, candidate: Option<Hash>, verified: bool, blocked: bool,
                       replacement: Option<Hash>, id: SessionId, csrf: nat, now: int, limits: Limits): Option<Db>
  {
    if !LoginAccepted(db, name, candidate, verified, blocked) then None
    else
      var hash := if replacement.Some? then replacement.value else db.users[name].hash;
      Some(Db(db.users[name := db.users[name].(hash := hash)],
              db.sessions[id := NewSession(name, csrf, now, limits)]))
  }

  function Reauthenticate(db: Db, c: Caller, candidate: Hash, verified: bool, blocked: bool, now: int): Option<Db> {
    if !ActorAllowed(db, c, now, true, false, false) || blocked || !verified
       || db.users[c.user].hash != candidate then None
    else Some(db.(sessions := db.sessions[c.session := db.sessions[c.session].(reauthenticatedAt := Some(now))]))
  }

  function CreateUser(db: Db, c: Caller, now: int, id: UserId, hash: Hash, role: Role, mustChange: bool): Option<Db> {
    if !ActorAllowed(db, c, now, true, role == Admin, false) || id in db.users then None
    else Some(db.(users := db.users[id := User(hash, role, true, mustChange)]))
  }

  function Else<T>(value: Option<T>, otherwise: T): T {
    if value.Some? then value.value else otherwise
  }

  predicate UpdateRefused(db: Db, c: Caller, now: int, target: UserId,
                          role: Option<Role>, active: Option<bool>, mustChange: Option<bool>)
  {
    || (role.None? && active.None? && mustChange.None?)
    || !ActorAllowed(db, c, now, true, true, false)
    || target !in db.users
    || (target == c.user && (role == Some(Member) || active == Some(false)))
    || (target in ActiveAdmins(db.users)
        && !(Else(active, db.users[target].active) && Else(role, db.users[target].role) == Admin)
        && |ActiveAdmins(db.users)| <= 1)
  }

  function UpdateUser(db: Db, c: Caller, now: int, target: UserId,
                      role: Option<Role>, active: Option<bool>, mustChange: Option<bool>): Option<Db>
  {
    if UpdateRefused(db, c, now, target, role, active, mustChange) then None
    else
      var was := db.users[target];
      var next := was.(role := Else(role, was.role), active := Else(active, was.active),
                       mustChange := Else(mustChange, was.mustChange));
      var revoke := next.role != was.role || (was.active && !next.active) || next.mustChange != was.mustChange;
      Some(Db(db.users[target := next],
              if revoke then RevokeSessions(db.sessions, target, None) else db.sessions))
  }

  function ResetUserPassword(db: Db, c: Caller, now: int, target: UserId, hash: Hash, mustChange: bool): Option<Db> {
    if target == c.user || !ActorAllowed(db, c, now, true, true, false) || target !in db.users then None
    else Some(Db(db.users[target := db.users[target].(hash := hash, mustChange := mustChange)],
                 RevokeSessions(db.sessions, target, None)))
  }

  /** The second phase of a password change. */
  function CommitPasswordChange(db: Db, c: Caller, now: int, candidate: Hash, forced: bool, hash: Hash,
                                id: SessionId, csrf: nat, limits: Limits): Option<Db>
  {
    if !ActorAllowed(db, c, now, false, false, true)
       || db.users[c.user].hash != candidate || db.users[c.user].mustChange != forced then None
    else Some(Db(db.users[c.user := db.users[c.user].(hash := hash, mustChange := false)],
                 RevokeSessions(db.sessions, c.user, None)[id := NewSession(c.user, csrf, now, limits)]))
  }

  function RevokeUserSessions(db: Db, c: Caller, now: int, target: UserId): Option<Db> {
    if !ActorAllowed(db, c, now, true, true, false) || target == c.user || target !in db.users then None
    else Some(db.(sessions := RevokeSessions(db.sessions, target, None)))
  }

  function RevokeOtherSessions(db: Db, c: Caller, now: int): Option<Db> {
    if !ActorAllowed(db, c, now, false, false, false) then None
    else Some(db.(sessions := RevokeSessions(db.sessions, c.user, Some(c.session))))
  }

  function SignOut(db: Db, id: SessionId): Db {
    if id in db.sessions && !db.sessions[id].revoked then
      db.(sessions := db.sessions[id := Revoked(db.sessions[id])])
    else db
  }

  function PurgeExpired(db: Db, now: int): Db {
    db.(sessions := map id | id in db.sessions && db.sessions[id].absoluteExpires > now
                             && db.sessions[id].idleExpires > now :: db.sessions[id])
  }

  /** resolve_session with touch, on a valid session. */
  function Touch(db: Db, id: SessionId, now: int, limits: Limits): Db {
    if SessionValid(db, id, now) && now - db.sessions[id].activityAt >= 60 then
      db.(sessions := db.sessions[id := db.sessions[id].(
            activityAt := now, idleExpires := Min(now + limits.idle, db.sessions[id].absoluteExpires))])
    else db
  }

  // ---------- The repository as it updates its rows in place ----------

  class Repository {
    var users: map<UserId, User>
    var sessions: map<SessionId, Session>

    function View(): Db
      reads this
    {
      Db(users, sessions)
    }

    constructor ()
      ensures View() == Db(map[], map[])
    {
      users, sessions := map[], map[];
    }

    /** Revokes row by row, and reports how many sessions it revoked. */
    method Revoke(user: UserId, except: Option<SessionId>) returns (count: nat)
      modifies `sessions
      ensures sessions == RevokeSessions(old(sessions), user, except)
      ensures count == |Revocable(old(sessions), user, except)|
    {
      var todo := Revocable(sessions, user, except);
      count := |todo|;
      while todo != {}
        invariant sessions.Keys == old(sessions).Keys && todo <= Revocable(old(sessions), user, except)
        invariant forall id :: id in todo ==> sessions[id] == old(sessions)[id]
        invariant forall id :: id in sessions && id !in todo ==>
          sessions[id] == RevokeSessions(old(sessions), user, except)[id]
      {
        var id :| id in todo;
        sessions := sessions[id := sessions[id].(revoked := true, reauthenticatedAt := None)];
        todo := todo - {id};
      }
    }

    method FinishLogin(name: UserId, candidate: Option<Hash>, verified: bool, blocked: bool,
                       replacement: Option<Hash>, id: SessionId, csrf: nat, now: int, limits: Limits)
      returns (ok: bool)
      modifies this
      ensures var next := CommitLogin(old(View()), name, candidate, verified, blocked, replacement, id, csrf,
                                      now, limits);
              ok == next.Some? && View() == if ok then next.value else old(View())
    {
      if blocked || !verified || name !in users || !users[name].active || Some(users[name].hash) != candidate {
        return false;
      }
      if replacement.Some? {
        users := users[name := users[name].(hash := replacement.value)];
      }
      sessions := sessions[id := NewSession(name, csrf, now, limits)];
      ok := true;
    }

    method Update(c: Caller, now: int, target: UserId, role: Option<Role>, active: Option<bool>,
                  mustChange: Option<bool>)
      returns (ok: bool)
      modifies this
      ensures var next := UpdateUser(old(View()), c, now, target, role, active, mustChange);
              ok == next.Some? && View() == if ok then next.value else old(View())
    {
      if UpdateRefused(View(), c, now, target, role, active, mustChange) {
        return false;
      }
      var revoke := false;
      var u := users[target];
      if role.Some? && role.value != u.role {
        u := u.(role := role.value);
        revoke := true;
      }
      if active.Some? && active.value != u.active {
        u := u.(active := active.value);
        revoke := revoke || !active.value;
      }
      if mustChange.Some? && mustChange.value != u.mustChange {
        u := u.(mustChange := mustChange.value);
        revoke := true;
      }
      users := users[target := u];
      if revoke {
        var _ := Revoke(target, None);
      }
      ok := true;
    }

    method FinishPasswordChange(c: Caller, now: int, candidate: Hash, forced: bool, hash: Hash,
                                id: SessionId, csrf: nat, limits: Limits) returns (ok: bool)
      modifies this
      ensures var next := CommitPasswordChange(old(View()), c, now, candidate, forced, hash, id, csrf, limits);
              ok == next.Some? && View() == if ok then next.value else old(View())
    {
      if !ActorAllowed(View(), c, now, false, false, true)
         || users[c.user].hash != candidate || users[c.user].mustChange != forced {
        return false;
      }
      users := users[c.user := users[c.user].(hash := hash)];
      users := users[c.user := users[c.user].(mustChange := false)];
      var _ := Revoke(c.user, None);
      sessions := sessions[id := NewSession(c.user, csrf, now, limits)];
      ok := true;
    }

    method ResetPassword(c: Caller, now: int, target: UserId, hash: Hash, mustChange: bool) returns (ok: bool)
      modifies this
      ensures var next := ResetUserPassword(old(View()), c, now, target, hash, mustChange);
              ok == next.Some? && View() == if ok then next.value else old(View())
    {
      if target == c.user || !ActorAllowed(View(), c, now, true, true, false) || target !in users {
        return false;
      }
      users := users[target := users[target].(hash := hash, mustChange := mustChange)];
      var _ := Revoke(target, None);
      ok := true;
    }

    /** Local recovery: resets an account to an active administrator, or creates the first one. */
    method Recover(name: Option<UserId>, hash: Hash, recover: bool, mustChange: bool) returns (id: Option<UserId>)
      modifies this
      ensures var next := ResetAdmin(old(View()), name, hash, recover, mustChange);
              && id == (if next.Some? then Some(next.value.1) else None)
              && View() == if next.Some? then next.value.0 else old(View())
    {
      var target;
      if name.None? {
        var admins := ActiveAdmins(users);
        if |admins| != 1 {
          return None;
        }
        target := Only(admins);
      } else {
        target := name.value;
        if target !in users {
          if users != map[] {
            return None;
          }
          users := users[target := User(hash, Admin, true, mustChange)];
        }
      }
      if (users[target].role != Admin || !users[target].active) && !recover {
        return None;
      }
      users := users[target := users[target].(role := Admin, active := true)];
      users := users[target := users[target].(hash := hash, mustChange := mustChange)];
      var _ := Revoke(target, None);
      id := Some(target);
    }

    method FinishReauthentication(c: Caller, candidate: Hash, verified: bool, blocked: bool, now: int)
      returns (ok: bool)
      modifies this
      ensures var next := Reauthenticate(old(View()), c, candidate, verified, blocked, now);
              ok == next.Some? && View() == if ok then next.value else old(View())
    {
      ok := ActorAllowed(View(), c, now, true, false, false) && !blocked && verified && users[c.user].hash == candidate;
      if ok {
        sessions := sessions[c.session := sessions[c.session].(reauthenticatedAt := Some(now))];
      }
    }

    /** A valid session is returned, and moved on if it was last used a minute ago or more. */
    method Resolve(id: SessionId, now: int, limits: Limits) returns (user: Option<UserId>)
      modifies `sessions
      ensures user == if SessionValid(old(View()), id, now) then Some(old(sessions)[id].user) else None
      ensures View() == Touch(old(View()), id, now, limits)
    {
      if !SessionValid(View(), id, now) {
        return None;
      }
      if now - sessions[id].activityAt >= 60 {
        sessions := sessions[id := sessions[id].(
          activityAt := now, idleExpires := Min(now + limits.idle, sessions[id].absoluteExpires))];
      }
      user := Some(sessions[id].user);
    }
  }
}
