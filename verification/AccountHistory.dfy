/** Every interleaving of sign-ins, password checks and account changes. A password is checked
    outside the write lock, so anything may happen between a check and the commit that relies on it. */
module AccountHistory {
  import opened Wrappers
  import opened Accounts

  /** How often an account's role, activation or password was set, and its password alone. */
  datatype Generation = Generation(account: nat, password: nat)

  /** Why a session exists: the generations it was opened in and checked against, the password
      that minted it, and the password generation of its last confirmation. */
  datatype Stamp = Stamp(account: nat, password: nat, secret: Password, confirmed: Option<nat>)

  datatype Purpose = Login | Confirm(caller: Caller) | Change(caller: Caller, forced: bool, replacement: Password)

  /** A password check made outside the lock: what it read, and what it concluded. */
  datatype Ticket = Ticket(
    purpose: Purpose,
    name: UserId,
    candidate: Option<Hash>,
    supplied: Password,
    verified: bool,
    checked: nat)

  datatype World = World(
    db: Db,
    now: int,
    passwords: map<Hash, Password>,
    generations: map<UserId, Generation>,
    stamps: map<SessionId, Stamp>,
    tickets: set<Ticket>,
    nextHash: Hash,
    nextSession: SessionId)

  const INIT := World(Db(map[], map[]), 0, map[], map[], map[], {}, 0, 0)

  datatype Step =
    | Tick(delta: nat)
    | Check(purpose: Purpose, name: UserId, supplied: Password, blocked: bool)
    | FinishLogin(ticket: Ticket, blocked: bool, outdated: bool, csrf: nat, limits: Limits)
    | FinishConfirm(ticket: Ticket, blocked: bool)
    | FinishChange(ticket: Ticket, csrf: nat, limits: Limits)
    | SetUp(name: UserId, password: Password)
    | Recover(account: Option<UserId>, password: Password, recover: bool, mustChange: bool)
    | Create(actor: Caller, name: UserId, password: Password, role: Role, mustChange: bool)
    | Update(actor: Caller, name: UserId, newRole: Option<Role>, active: Option<bool>, newMustChange: Option<bool>)
    | Reset(actor: Caller, name: UserId, password: Password, mustChange: bool)
    | RevokeUser(actor: Caller, name: UserId)
    | RevokeOthers(actor: Caller)
    | EndSession(session: SessionId)
    | Purge
    | Resolve(session: SessionId, limits: Limits)

  /** What a transaction committed: the rows, the password behind a fresh hash, whether that hash
      only re-encodes the same password, the session it opened or confirmed. */
  datatype Effect = Effect(
    db: Db,
    hashed: Option<Password>,
    rehash: bool,
    minted: Option<Opened>,
    confirmed: Option<(SessionId, nat)>)

  /** `checked` is None when the session was opened by the step that set the password. */
  datatype Opened = Opened(user: UserId, secret: Password, checked: Option<nat>)

  predicate Matches(w: World, hash: Hash, supplied: Password) {
    hash in w.passwords && w.passwords[hash] == supplied
  }

  function HashOf(db: Db, name: UserId): Option<Hash> {
    if name in db.users then Some(db.users[name].hash) else None
  }

  /** The unlocked phase: read the account, then verify. None when it is refused outright. */
  function Checked(w: World, p: Purpose, name: UserId, supplied: Password, blocked: bool): Option<Ticket> {
    var candidate := HashOf(w.db, name);
    var verified := candidate.Some? && |supplied| <= 1024 && Matches(w, candidate.value, supplied);
    var ticket := Ticket(p, name, candidate, supplied, verified,
                         if name in w.generations then w.generations[name].password else 0);
    if p.Login? then
      if blocked || |supplied| > 1024 then None else Some(ticket)
    else if p.Confirm? then
      if blocked || name != p.caller.user || !ActorAllowed(w.db, p.caller, w.now, true, false, false) then None
      else Some(ticket)
    else
      if blocked || name != p.caller.user || !ActorAllowed(w.db, p.caller, w.now, false, false, true)
         || p.forced != w.db.users[name].mustChange || (!p.forced && !verified)
         || Matches(w, w.db.users[name].hash, p.replacement) then None
      else Some(ticket)
  }

  function LoginEffect(w: World, t: Ticket, blocked: bool, outdated: bool, csrf: nat, limits: Limits): Option<Effect> {
    var replacement := if t.verified && outdated then Some(w.nextHash) else None;
    match CommitLogin(w.db, t.name, t.candidate, t.verified, blocked, replacement, w.nextSession, csrf, w.now, limits)
    case None => None
    case Some(db) =>
      Some(Effect(db, if replacement.Some? then Some(t.supplied) else None, true,
                  Some(Opened(t.name, t.supplied, Some(t.checked))), None))
  }

  function ConfirmEffect(w: World, t: Ticket, blocked: bool): Option<Effect>
    requires t.purpose.Confirm?
  {
    if t.candidate.None? then None else
    match Reauthenticate(w.db, t.purpose.caller, t.candidate.value, t.verified, blocked, w.now)
    case None => None
    case Some(db) => Some(Effect(db, None, false, None, Some((t.purpose.caller.session, t.checked))))
  }

  function ChangeEffect(w: World, t: Ticket, csrf: nat, limits: Limits): Option<Effect>
    requires t.purpose.Change?
  {
    if t.candidate.None? then None else
    match CommitPasswordChange(w.db, t.purpose.caller, w.now, t.candidate.value, t.purpose.forced, w.nextHash,
                               w.nextSession, csrf, limits)
    case None => None
    case Some(db) =>
      Some(Effect(db, Some(t.purpose.replacement), false,
                  Some(Opened(t.purpose.caller.user, t.purpose.replacement, None)), None))
  }

  function Setting(db: Option<Db>, password: Password): Option<Effect> {
    if db.None? then None else Some(Effect(db.value, Some(password), false, None, None))
  }

  function Plain(db: Option<Db>): Option<Effect> {
    if db.None? then None else Some(Effect(db.value, None, false, None, None))
  }

  /** What the step commits, or None when it is refused. */
  function Committed(w: World, step: Step): Option<Effect> {
    match step
    case FinishLogin(t, blocked, outdated, csrf, limits) =>
      if t in w.tickets && t.purpose.Login? then LoginEffect(w, t, blocked, outdated, csrf, limits) else None
    case FinishConfirm(t, blocked) =>
      if t in w.tickets && t.purpose.Confirm? then ConfirmEffect(w, t, blocked) else None
    case FinishChange(t, csrf, limits) =>
      if t in w.tickets && t.purpose.Change? then ChangeEffect(w, t, csrf, limits) else None
    case SetUp(name, password) => Setting(CreateInitialAdmin(w.db, name, w.nextHash), password)
    case Recover(name, password, recover, must) =>
      var r := ResetAdmin(w.db, name, w.nextHash, recover, must);
      Setting(if r.Some? then Some(r.value.0) else None, password)
    case Create(actor, name, password, role, must) =>
      Setting(CreateUser(w.db, actor, w.now, name, w.nextHash, role, must), password)
    case Update(actor, name, role, active, must) =>
      Plain(UpdateUser(w.db, actor, w.now, name, role, active, must))
    case Reset(actor, name, password, must) =>
      Setting(ResetUserPassword(w.db, actor, w.now, name, w.nextHash, must), password)
    case RevokeUser(actor, name) => Plain(RevokeUserSessions(w.db, actor, w.now, name))
    case RevokeOthers(actor) => Plain(RevokeOtherSessions(w.db, actor, w.now))
    case EndSession(id) => Plain(Some(SignOut(w.db, id)))
    case Purge => Plain(Some(PurgeExpired(w.db, w.now)))
    case Resolve(id, limits) => Plain(Some(Touch(w.db, id, w.now, limits)))
    case _ => None
  }

  predicate SamePassword(was: User, now: User, rehash: bool) {
    was.hash == now.hash || rehash
  }

  predicate SameAccount(was: User, now: User, rehash: bool) {
    was.role == now.role && was.active == now.active && was.mustChange == now.mustChange
    && SamePassword(was, now, rehash)
  }

  function Bump(g: Generation, was: User, now: User, rehash: bool): Generation {
    Generation(if SameAccount(was, now, rehash) then g.account else g.account + 1,
               if SamePassword(was, now, rehash) then g.password else g.password + 1)
  }

  function Generations(w: World, e: Effect): map<UserId, Generation> {
    map u | u in e.db.users ::
      if u in w.db.users && u in w.generations then Bump(w.generations[u], w.db.users[u], e.db.users[u], e.rehash)
      else Generation(0, 0)
  }

  function Stamps(w: World, e: Effect, generations: map<UserId, Generation>): map<SessionId, Stamp> {
    if e.minted.Some? && e.minted.value.user in generations then
      var g := generations[e.minted.value.user];
      w.stamps[w.nextSession := Stamp(g.account, Else(e.minted.value.checked, g.password), e.minted.value.secret, None)]
    else if e.confirmed.Some? && e.confirmed.value.0 in w.stamps then
      var id := e.confirmed.value.0;
      w.stamps[id := w.stamps[id].(confirmed := Some(e.confirmed.value.1))]
    else w.stamps
  }

  function After(w: World, e: Effect): World {
    var generations := Generations(w, e);
    w.(db := e.db,
       passwords := if e.hashed.Some? then w.passwords[w.nextHash := e.hashed.value] else w.passwords,
       generations := generations,
       stamps := Stamps(w, e, generations),
       nextHash := w.nextHash + 1,
       nextSession := w.nextSession + 1)
  }

  function Next(w: World, step: Step): World {
    match step
    case Tick(delta) => w.(now := w.now + delta)
    case Check(purpose, name, supplied, blocked) =>
      var ticket := Checked(w, purpose, name, supplied, blocked);
      if ticket.Some? then w.(tickets := w.tickets + {ticket.value}) else w
    case _ =>
      var e := Committed(w, step);
      if e.Some? then After(w, e.value) else w
  }

  function Run(w: World, steps: seq<Step>): World {
    if steps == [] then w else Next(Run(w, steps[..|steps| - 1]), steps[|steps| - 1])
  }

  // ---------- The invariant ----------

  /** An unrevoked session belongs to an active account, in the account's current generation,
      and was opened by the password the account has now. */
  predicate SessionInv(w: World, id: SessionId)
    requires id in w.db.sessions
  {
    var s := w.db.sessions[id];
    && id < w.nextSession && id in w.stamps && s.user in w.db.users && s.user in w.generations
    && (!s.revoked ==>
          var u, g, stamp := w.db.users[s.user], w.generations[s.user], w.stamps[id];
          && u.active && stamp.account == g.account && stamp.password == g.password
          && Matches(w, u.hash, stamp.secret)
          && (s.reauthenticatedAt.Some? ==> stamp.confirmed == Some(g.password)))
    && (s.revoked ==> s.reauthenticatedAt.None?)
  }

  /** A check is about the current password exactly while the hash it read is still in place. */
  predicate TicketInv(w: World, t: Ticket) {
    && (t.candidate.Some? ==> t.candidate.value < w.nextHash && t.name in w.db.users)
    && (t.candidate.Some? && HashOf(w.db, t.name) == t.candidate ==>
          && t.name in w.generations && t.checked == w.generations[t.name].password
          && (t.verified ==> Matches(w, t.candidate.value, t.supplied))
          && (t.purpose.Change? ==> !Matches(w, t.candidate.value, t.purpose.replacement)))
    && (!t.purpose.Login? ==> t.name == t.purpose.caller.user)
    && (t.purpose.Change? && !t.purpose.forced ==> t.verified)
  }

  predicate Stocked(w: World) {
    && w.generations.Keys == w.db.users.Keys
    && (forall u :: u in w.db.users ==> w.db.users[u].hash in w.passwords)
    && (forall h :: h in w.passwords ==> h < w.nextHash)
  }

  predicate Administered(db: Db) {
    db.users == map[] || ActiveAdmins(db.users) != {}
  }

  ghost predicate Inv(w: World) {
    && Stocked(w)
    && Administered(w.db)
    && (forall id :: id in w.db.sessions ==> SessionInv(w, id))
    && (forall t :: t in w.tickets ==> TicketInv(w, t))
  }

  // ---------- What every commit must respect ----------

  /** A session that is still unrevoked after the commit was unrevoked before it, its account is
      untouched, and it is no longer-lived unless it was valid. */
  predicate Survives(w: World, e: Effect, id: SessionId)
    requires id in e.db.sessions
  {
    && id in w.db.sessions
    && var was, s := w.db.sessions[id], e.db.sessions[id];
    && s.user == was.user
    && (s.revoked ==> s.reauthenticatedAt.None?)
    && (!s.revoked ==>
          && !was.revoked && was.user in w.db.users && was.user in e.db.users
          && SameAccount(w.db.users[was.user], e.db.users[was.user], e.rehash)
          && s.absoluteExpires == was.absoluteExpires
          && (s.idleExpires == was.idleExpires || SessionValid(w.db, id, w.now))
          && (if e.confirmed.Some? && e.confirmed.value.0 == id
              then was.user in w.generations && e.confirmed.value.1 == w.generations[was.user].password
              else s.reauthenticatedAt == was.reauthenticatedAt))
  }

  predicate OpensWell(w: World, e: Effect)
  {
    && e.minted.Some?
    && w.nextSession in e.db.sessions
    && var s, o := e.db.sessions[w.nextSession], e.minted.value;
    && s.user == o.user && o.user in e.db.users && e.db.users[o.user].active && !s.revoked && s.reauthenticatedAt.None?
    && (e.hashed.Some? && e.db.users[o.user].hash == w.nextHash ==> o.secret == e.hashed.value)
    && (e.db.users[o.user].hash != w.nextHash ==> Matches(w, e.db.users[o.user].hash, o.secret))
    && (e.db.users[o.user].hash == w.nextHash ==> e.hashed.Some?)
    && (o.checked.Some? ==> o.user in w.db.users && o.user in w.generations
                            && SamePassword(w.db.users[o.user], e.db.users[o.user], e.rehash)
                            && o.checked.value == w.generations[o.user].password)
  }

  /** No account disappears, and a hash that changes is the fresh one, with a known password. */
  predicate AccountsKept(w: World, e: Effect) {
    && w.db.users.Keys <= e.db.users.Keys
    && (forall u :: u in e.db.users ==> HashKept(w, e, u))
    && (e.confirmed.Some? ==> e.minted.None?)
  }

  predicate HashKept(w: World, e: Effect, u: UserId)
    requires u in e.db.users
  {
    || (u in w.db.users && e.db.users[u].hash == w.db.users[u].hash)
    || (e.db.users[u].hash == w.nextHash && e.hashed.Some?
        && (u in w.db.users && e.rehash ==> Matches(w, w.db.users[u].hash, e.hashed.value)))
  }

  ghost predicate Respects(w: World, e: Effect) {
    && AccountsKept(w, e)
    && Administered(e.db)
    && (forall id :: id in e.db.sessions && id != w.nextSession ==> Survives(w, e, id))
    && (w.nextSession in e.db.sessions ==> OpensWell(w, e))
  }

  // ---------- Every commit respects it ----------

  lemma LoginRespects(w: World, t: Ticket, blocked: bool, outdated: bool, csrf: nat, limits: Limits)
    requires Inv(w) && t in w.tickets
    ensures var e := LoginEffect(w, t, blocked, outdated, csrf, limits); e.Some? ==> Respects(w, e.value)
  {
    var e := LoginEffect(w, t, blocked, outdated, csrf, limits);
    if e.Some? {
      assert TicketInv(w, t);
      var d := e.value;
      forall u | u in d.db.users ensures HashKept(w, d, u) {}
      forall id | id in d.db.sessions && id != w.nextSession ensures Survives(w, d, id) {
        assert SessionInv(w, id);
      }
    }
  }

  lemma ConfirmRespects(w: World, t: Ticket, blocked: bool)
    requires Inv(w) && t in w.tickets && t.purpose.Confirm?
    ensures var e := ConfirmEffect(w, t, blocked); e.Some? ==> Respects(w, e.value)
  {
    var e := ConfirmEffect(w, t, blocked);
    if e.Some? {
      assert TicketInv(w, t);
      var d := e.value;
      forall id | id in d.db.sessions && id != w.nextSession ensures Survives(w, d, id) {
        assert SessionInv(w, id);
      }
      assert w.nextSession in d.db.sessions ==> SessionInv(w, w.nextSession);
    }
  }

  lemma ChangeRespects(w: World, t: Ticket, csrf: nat, limits: Limits)
    requires Inv(w) && t in w.tickets && t.purpose.Change?
    ensures var e := ChangeEffect(w, t, csrf, limits); e.Some? ==> Respects(w, e.value)
  {
    var e := ChangeEffect(w, t, csrf, limits);
    if e.Some? {
      assert TicketInv(w, t);
      var d, c := e.value, t.purpose.caller;
      forall id | id in d.db.sessions && id != w.nextSession ensures Survives(w, d, id) {
        assert SessionInv(w, id);
      }
      var admin :| admin in ActiveAdmins(w.db.users);
      assert admin in ActiveAdmins(d.db.users);
    }
  }

  /** A transaction that opens no session keeps the invariant if it touches sessions only by
      revoking those of the account it changes. */
  lemma RevokingRespects(w: World, e: Effect, name: UserId)
    requires Inv(w)
    requires e.minted.None? && e.confirmed.None? && !e.rehash
    requires forall u :: u in w.db.users ==> u in e.db.users && (u != name ==> e.db.users[u] == w.db.users[u])
    requires forall u :: u in e.db.users && u !in w.db.users ==> u == name
    requires name in e.db.users ==> HashKept(w, e, name)
    requires e.db.sessions == RevokeSessions(w.db.sessions, name, None)
             || (e.db.sessions == w.db.sessions
                 && (name in w.db.users && w.db.users[name].active ==>
                       SameAccount(w.db.users[name], e.db.users[name], false)))
    requires Administered(e.db)
    ensures Respects(w, e)
  {
    forall id | id in e.db.sessions ensures id != w.nextSession && Survives(w, e, id) {
      assert SessionInv(w, id);
    }
  }

  lemma SetUpRespects(w: World, name: UserId, password: Password)
    requires Inv(w)
    ensures var e := Committed(w, SetUp(name, password)); e.Some? ==> Respects(w, e.value)
  {
    var e := Committed(w, SetUp(name, password));
    if e.Some? {
      assert name in ActiveAdmins(e.value.db.users);
      RevokingRespects(w, e.value, name);
    }
  }

  lemma RecoverRespects(w: World, name: Option<UserId>, password: Password, recover: bool, must: bool)
    requires Inv(w)
    ensures var e := Committed(w, Recover(name, password, recover, must)); e.Some? ==> Respects(w, e.value)
  {
    var r := ResetAdmin(w.db, name, w.nextHash, recover, must);
    if r.Some? {
      ResetAdminChanges(w.db, name, w.nextHash, recover, must);
      RevokingRespects(w, Effect(r.value.0, Some(password), false, None, None), r.value.1);
    }
  }

  lemma ResetAdminChanges(db: Db, name: Option<UserId>, hash: Hash, recover: bool, must: bool)
    requires ResetAdmin(db, name, hash, recover, must).Some?
    ensures var (next, id) := ResetAdmin(db, name, hash, recover, must).value;
            && Administered(next)
            && next == Db(db.users[id := User(hash, Admin, true, must)], RevokeSessions(db.sessions, id, None))
  {
    var (next, id) := ResetAdmin(db, name, hash, recover, must).value;
    assert id in ActiveAdmins(next.users);
  }

  lemma AdministratorsStay(was: Db, db: Db)
    requires was.users != map[] && Administered(was) && ActiveAdmins(was.users) <= ActiveAdmins(db.users)
    ensures Administered(db)
  {
    var admin :| admin in ActiveAdmins(was.users);
    assert admin in ActiveAdmins(db.users);
  }

  lemma CreateRespects(w: World, actor: Caller, name: UserId, password: Password, role: Role, must: bool)
    requires Inv(w)
    ensures var e := Committed(w, Create(actor, name, password, role, must)); e.Some? ==> Respects(w, e.value)
  {
    var db := CreateUser(w.db, actor, w.now, name, w.nextHash, role, must);
    if db.Some? {
      AdministratorsStay(w.db, db.value);
      RevokingRespects(w, Effect(db.value, Some(password), false, None, None), name);
    }
  }

  /** Resetting a password keeps every administrator an administrator. */
  lemma ResetKeepsAdministrators(was: Db, db: Db, actor: Caller, now: int, name: UserId, hash: Hash, must: bool)
    requires Administered(was) && ResetUserPassword(was, actor, now, name, hash, must) == Some(db)
    ensures Administered(db)
  {
    AdministratorsStay(was, db);
  }

  lemma ResetRespects(w: World, actor: Caller, name: UserId, password: Password, must: bool)
    requires Inv(w)
    ensures var e := Committed(w, Reset(actor, name, password, must)); e.Some? ==> Respects(w, e.value)
  {
    var db := ResetUserPassword(w.db, actor, w.now, name, w.nextHash, must);
    if db.Some? {
      ResetKeepsAdministrators(w.db, db.value, actor, w.now, name, w.nextHash, must);
      RevokingRespects(w, Effect(db.value, Some(password), false, None, None), name);
    }
  }

  lemma RevokeUserRespects(w: World, actor: Caller, name: UserId)
    requires Inv(w)
    ensures var e := Committed(w, RevokeUser(actor, name)); e.Some? ==> Respects(w, e.value)
  {
    var db := RevokeUserSessions(w.db, actor, w.now, name);
    if db.Some? { RevokingRespects(w, Effect(db.value, None, false, None, None), name); }
  }

  /** The caller of an update is an administrator and stays one, whichever account it changes. */
  lemma UpdateRespects(w: World, step: Step)
    requires Inv(w) && step.Update?
    ensures var e := Committed(w, step); e.Some? ==> Respects(w, e.value)
  {
    var e := Committed(w, step);
    if e.Some? {
      assert step.actor.user in ActiveAdmins(e.value.db.users);
      RevokingRespects(w, e.value, step.name);
    }
  }

  /** Steps that only revoke, purge or touch sessions. */
  lemma SessionStepRespects(w: World, step: Step)
    requires Inv(w)
    requires step.RevokeOthers? || step.EndSession? || step.Purge? || step.Resolve?
    ensures var e := Committed(w, step); e.Some? ==> Respects(w, e.value)
  {
    var e := Committed(w, step);
    if e.Some? {
      forall id | id in e.value.db.sessions ensures id != w.nextSession && Survives(w, e.value, id) {
        assert SessionInv(w, id);
      }
    }
  }

  lemma EveryCommitRespects(w: World, step: Step)
    requires Inv(w)
    ensures var e := Committed(w, step); e.Some? ==> Respects(w, e.value)
  {
    match step
    case FinishLogin(t, blocked, outdated, csrf, limits) =>
      if t in w.tickets { LoginRespects(w, t, blocked, outdated, csrf, limits); }
    case FinishConfirm(t, blocked) =>
      if t in w.tickets && t.purpose.Confirm? { ConfirmRespects(w, t, blocked); }
    case FinishChange(t, csrf, limits) =>
      if t in w.tickets && t.purpose.Change? { ChangeRespects(w, t, csrf, limits); }
    case SetUp(name, password) => SetUpRespects(w, name, password);
    case Recover(name, password, recover, must) => RecoverRespects(w, name, password, recover, must);
    case Create(actor, name, password, role, must) => CreateRespects(w, actor, name, password, role, must);
    case Update(_, _, _, _, _) => UpdateRespects(w, step);
    case Reset(actor, name, password, must) => ResetRespects(w, actor, name, password, must);
    case RevokeUser(actor, name) => RevokeUserRespects(w, actor, name);
    case RevokeOthers(_) => SessionStepRespects(w, step);
    case EndSession(_) => SessionStepRespects(w, step);
    case Purge => SessionStepRespects(w, step);
    case Resolve(_, _) => SessionStepRespects(w, step);
    case _ =>
  }

  // ---------- and so the invariant holds in every run ----------

  lemma OpenedIsSound(w: World, e: Effect, v: World)
    requires Inv(w) && Respects(w, e) && v == After(w, e) && w.nextSession in e.db.sessions
    ensures SessionInv(v, w.nextSession)
  {
    assert OpensWell(w, e);
  }

  /** The account of a session that stays unrevoked is in the same generation as before. */
  lemma SurvivorsAccountStays(w: World, e: Effect, v: World, id: SessionId)
    requires Inv(w) && Respects(w, e) && v == After(w, e) && id in e.db.sessions && id != w.nextSession
    requires !e.db.sessions[id].revoked
    ensures var user := e.db.sessions[id].user;
            && user in v.db.users && user in w.db.users && v.db.users[user].active == w.db.users[user].active
            && user in v.generations && user in w.generations && v.generations[user] == w.generations[user]
            && forall secret :: Matches(w, w.db.users[user].hash, secret) ==> Matches(v, v.db.users[user].hash, secret)
  {
    assert Survives(w, e, id) && SessionInv(w, id);
    assert HashKept(w, e, e.db.sessions[id].user);
  }

  lemma SurvivorIsSound(w: World, e: Effect, v: World, id: SessionId)
    requires Inv(w) && Respects(w, e) && v == After(w, e) && id in e.db.sessions && id != w.nextSession
    ensures SessionInv(v, id)
  {
    assert Survives(w, e, id) && SessionInv(w, id);
    if !e.db.sessions[id].revoked { SurvivorsAccountStays(w, e, v, id); }
  }

  lemma AfterKeepsSession(w: World, e: Effect, id: SessionId)
    requires Inv(w) && Respects(w, e) && id in e.db.sessions
    ensures SessionInv(After(w, e), id)
  {
    if id == w.nextSession { OpenedIsSound(w, e, After(w, e)); } else { SurvivorIsSound(w, e, After(w, e), id); }
  }

  lemma AfterKeepsTicket(w: World, e: Effect, t: Ticket)
    requires Inv(w) && Respects(w, e) && t in w.tickets
    ensures TicketInv(After(w, e), t)
  {
    assert TicketInv(w, t);
    if t.name in e.db.users {
      assert HashKept(w, e, t.name);
    }
  }

  lemma AfterKeepsInv(w: World, e: Effect)
    requires Inv(w) && Respects(w, e)
    ensures Inv(After(w, e))
  {
    forall u | u in e.db.users ensures e.db.users[u].hash in After(w, e).passwords {
      assert HashKept(w, e, u);
    }
    forall id | id in e.db.sessions ensures SessionInv(After(w, e), id) { AfterKeepsSession(w, e, id); }
    forall t | t in w.tickets ensures TicketInv(After(w, e), t) { AfterKeepsTicket(w, e, t); }
  }

  lemma CheckKeepsInv(w: World, step: Step)
    requires Inv(w) && (step.Check? || step.Tick?)
    ensures Inv(Next(w, step))
  {
    var v := Next(w, step);
    forall id | id in v.db.sessions ensures SessionInv(v, id) { assert SessionInv(w, id); }
    forall t | t in v.tickets ensures TicketInv(v, t) {
      if t in w.tickets { assert TicketInv(w, t); }
    }
  }

  lemma StepKeepsInv(w: World, step: Step)
    requires Inv(w)
    ensures Inv(Next(w, step))
  {
    if step.Check? || step.Tick? {
      CheckKeepsInv(w, step);
    } else {
      EveryCommitRespects(w, step);
      var e := Committed(w, step);
      if e.Some? { AfterKeepsInv(w, e.value); }
    }
  }

  lemma {:induction false} RunKeepsInv(steps: seq<Step>)
    ensures Inv(Run(INIT, steps))
  {
    if steps != [] {
      var n := |steps| - 1;
      RunKeepsInv(steps[..n]);
      StepKeepsInv(Run(INIT, steps[..n]), steps[n]);
    }
  }

  lemma RunSplits(steps: seq<Step>, more: seq<Step>)
    requires more != []
    ensures var n := |more| - 1; Run(INIT, steps + more) == Next(Run(INIT, steps + more[..n]), more[n])
  {
    var all, n := steps + more, |more| - 1;
    var before := Run(INIT, all[..|all| - 1]);
    assert Run(INIT, all) == Next(before, all[|all| - 1]);
    assert all[..|all| - 1] == steps + more[..n];
  }

  // ---------- What holds over whole runs ----------

  /** In every reachable state an unrevoked session belongs to an active account, was opened in
      the account's current password, role and activation generation, and was opened by the very
      password the account has now; a confirmation it carries is of that password too. */
  lemma SessionsAreCurrent(steps: seq<Step>, id: SessionId)
    requires id in Run(INIT, steps).db.sessions && !Run(INIT, steps).db.sessions[id].revoked
    ensures var w := Run(INIT, steps); var s := w.db.sessions[id];
            && s.user in w.db.users && s.user in w.generations && id in w.stamps
            && w.db.users[s.user].active
            && w.stamps[id].account == w.generations[s.user].account
            && w.stamps[id].password == w.generations[s.user].password
            && Matches(w, w.db.users[s.user].hash, w.stamps[id].secret)
            && (s.reauthenticatedAt.Some? ==> w.stamps[id].confirmed == Some(w.generations[s.user].password))
  {
    RunKeepsInv(steps);
    assert SessionInv(Run(INIT, steps), id);
  }

  /** Once any account exists, an active administrator exists, in every run. */
  lemma AnAdministratorRemains(steps: seq<Step>)
    requires Run(INIT, steps).db.users != map[]
    ensures var users := Run(INIT, steps).db.users;
            exists u :: u in users && users[u].role == Admin && users[u].active
  {
    RunKeepsInv(steps);
    var users := Run(INIT, steps).db.users;
    var u :| u in ActiveAdmins(users);
    assert users[u].role == Admin;
  }

  /** The count of administrators never decides an update: the caller is another one, because
      the caller may neither demote nor deactivate itself. */
  lemma LastAdministratorGuardIsImplied(db: Db, c: Caller, now: int, target: UserId,
                                        role: Option<Role>, active: Option<bool>)
    requires ActorAllowed(db, c, now, true, true, false)
    requires target in ActiveAdmins(db.users)
    requires !(Else(active, db.users[target].active) && Else(role, db.users[target].role) == Admin)
    requires !(target == c.user && (role == Some(Member) || active == Some(false)))
    ensures |ActiveAdmins(db.users)| > 1
  {
    assert {target, c.user} <= ActiveAdmins(db.users) && target != c.user;
    if |ActiveAdmins(db.users)| == 1 {
      OnlyIsUnique(ActiveAdmins(db.users));
    } else {
      assert ActiveAdmins(db.users) != {};
    }
  }

  /** A check made before the password was set anew, by whatever route, commits nothing afterwards:
      it opens no session, confirms none, and changes no password. */
  lemma StaleChecksAreInert(steps: seq<Step>, step: Step)
    requires step.FinishLogin? || step.FinishConfirm? || step.FinishChange?
    requires var w := Run(INIT, steps);
             step.ticket.name in w.generations
             && step.ticket.checked != w.generations[step.ticket.name].password
    ensures Next(Run(INIT, steps), step) == Run(INIT, steps)
  {
    RunKeepsInv(steps);
    var w := Run(INIT, steps);
    if step.ticket in w.tickets {
      assert TicketInv(w, step.ticket);
    }
  }

  /** A committed change really replaces the password, and unless it was forced the caller knew
      the password it replaced. */
  lemma ChangesReplaceThePassword(steps: seq<Step>, step: Step)
    requires step.FinishChange? && step.ticket.purpose.Change?
    requires Next(Run(INIT, steps), step) != Run(INIT, steps)
    ensures var w, v := Run(INIT, steps), Next(Run(INIT, steps), step);
            var name, p := step.ticket.name, step.ticket.purpose;
            && name in w.db.users && name in v.db.users
            && Matches(v, v.db.users[name].hash, p.replacement)
            && !Matches(w, w.db.users[name].hash, p.replacement)
            && (!p.forced ==> Matches(w, w.db.users[name].hash, step.ticket.supplied))
            && (forall id :: id in v.db.sessions && v.db.sessions[id].user == name && !v.db.sessions[id].revoked
                  ==> id == w.nextSession)
  {
    RunKeepsInv(steps);
    var w := Run(INIT, steps);
    ChangeReplaces(w, step, Next(w, step));
    OneSessionIsLeft(w, step, Next(w, step));
  }

  lemma ChangeReplaces(w: World, step: Step, v: World)
    requires step.FinishChange? && step.ticket.purpose.Change?
    requires Inv(w) && v == Next(w, step) && v != w
    ensures var name, p := step.ticket.name, step.ticket.purpose;
            && name in w.db.users && name in v.db.users
            && Matches(v, v.db.users[name].hash, p.replacement)
            && !Matches(w, w.db.users[name].hash, p.replacement)
            && (!p.forced ==> Matches(w, w.db.users[name].hash, step.ticket.supplied))
  {
    assert step.ticket in w.tickets && TicketInv(w, step.ticket);
  }

  lemma OneSessionIsLeft(w: World, step: Step, v: World)
    requires step.FinishChange? && step.ticket.purpose.Change?
    requires Inv(w) && v == Next(w, step) && v != w
    ensures forall id :: id in v.db.sessions && v.db.sessions[id].user == step.ticket.name && !v.db.sessions[id].revoked
              ==> id == w.nextSession
  {
    assert step.ticket in w.tickets && TicketInv(w, step.ticket);
  }

  predicate Gone(w: World, id: SessionId) {
    id < w.nextSession && !SessionValid(w.db, id, w.now)
  }

  lemma GoneStays(w: World, step: Step, id: SessionId)
    requires Inv(w) && Gone(w, id)
    ensures Gone(Next(w, step), id)
  {
    EveryCommitRespects(w, step);
    var v := Next(w, step);
    var e := Committed(w, step);
    if !step.Check? && !step.Tick? && e.Some? && id in v.db.sessions {
      assert Survives(w, e.value, id);
    }
  }

  /** A session that was revoked, purged or expired, or whose account was deactivated, is never
      accepted again: not by reactivating the account, and not by using the session. */
  lemma {:induction false} EndedSessionsStayEnded(steps: seq<Step>, more: seq<Step>, id: SessionId)
    requires Gone(Run(INIT, steps), id)
    ensures !SessionValid(Run(INIT, steps + more).db, id, Run(INIT, steps + more).now)
    ensures Gone(Run(INIT, steps + more), id)
  {
    if more == [] {
      assert steps + more == steps;
    } else {
      var n := |more| - 1;
      EndedSessionsStayEnded(steps, more[..n], id);
      RunKeepsInv(steps + more[..n]);
      RunSplits(steps, more);
      GoneStays(Run(INIT, steps + more[..n]), more[n], id);
    }
  }
}
