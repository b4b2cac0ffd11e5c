/**
  Where tokens come from: every JWT, along refresh chains of any length, goes back to a
  Login call whose password matched the hash stored when its user registered.
 */
module AccountSessions {
  import opened Prelude
  import opened AccountTables
  import opened AccountMachine
  import opened AccountInvariant
  import opened AccountRely
  import opened AccountTheorems
  import Jwt

  /** Some Login call presented this user's email with a password that matches the user's hash. */
  ghost predicate LoggedInBy(env: Env, s: System, uid: Uuid, c: CallId) {
    && c in s.calls && s.calls[c].request.Login?
    && s.calls[c].request.email in s.state.db.emails && s.state.db.emails[s.calls[c].request.email] == uid
    && uid in s.state.db.users && s.state.db.users[uid].passwordHash.Some?
    && env.compare(s.state.db.users[uid].passwordHash.value, s.calls[c].request.password)
  }

  ghost predicate HasLogin(env: Env, s: System, uid: Uuid) {
    exists c :: LoggedInBy(env, s, uid, c)
  }

  /** The user a Login or Refresh request speaks for. */
  ghost predicate SpeaksFor(s: System, request: Request, uid: Uuid) {
    match request
    case Login(email, _) => email in s.state.db.emails && s.state.db.emails[email] == uid
    case Refresh(t) => t.user == uid && t in s.state.db.signed
    case _ => false
  }

  /** What a call's program counter says about its session. */
  ghost predicate SessionAt(env: Env, s: System, request: Request, pc: Pc) {
    match pc
    case FindHolder(uid) => SpeaksFor(s, request, uid) && HasLogin(env, s, uid)
    case SignAccess(uid) => SpeaksFor(s, request, uid) && HasLogin(env, s, uid)
    case SignRefresh(uid, access) => SpeaksFor(s, request, uid) && HasLogin(env, s, uid) && access.user == uid
    case Done(Tokens(access, refresh)) => SpeaksFor(s, request, access.user) && refresh.user == access.user
    case _ => true
  }

  /** The user's hash was made from the password of the call that registered the email. */
  ghost predicate HashedAtRegistration(env: Env, s: System, email: string) {
    && email in s.state.hist.registrar && s.state.hist.registrar[email] in s.calls
    && email in s.state.db.emails && s.state.db.emails[email] in s.state.db.users
    && var request := s.calls[s.state.hist.registrar[email]].request;
       request.Register? && MadeFrom(env, s.state.db.users[s.state.db.emails[email]].passwordHash, request.password)
  }

  ghost predicate MadeFrom(env: Env, hash: Option<string>, password: string) {
    exists salt :: env.hash(password, salt) == hash
  }

  ghost predicate SessionsSound(env: Env, s: System) {
    && (forall j :: j in s.state.db.signed ==> HasLogin(env, s, j.user))
    && (forall c :: c in s.calls ==> SessionAt(env, s, s.calls[c].request, s.calls[c].pc))
    && (forall e :: e in s.state.db.emails ==> HashedAtRegistration(env, s, e))
  }

  lemma LoginStays(env: Env, s: System, t: System, uid: Uuid)
    requires Later(s, t) && HasLogin(env, s, uid)
    ensures HasLogin(env, t, uid)
  {
    var c :| LoggedInBy(env, s, uid, c);
    assert SameUser(s.state.db.users[uid], t.state.db.users[uid]);
    assert LoggedInBy(env, t, uid, c);
  }

  lemma SessionStays(env: Env, s: System, t: System, request: Request, pc: Pc)
    requires Later(s, t) && SessionAt(env, s, request, pc)
    ensures SessionAt(env, t, request, pc)
  {
    match pc
    case FindHolder(uid) => LoginStays(env, s, t, uid);
    case SignAccess(uid) => LoginStays(env, s, t, uid);
    case SignRefresh(uid, _) => LoginStays(env, s, t, uid);
    case _ =>
  }

  lemma HashStays(env: Env, s: System, t: System, email: string)
    requires Later(s, t) && HashedAtRegistration(env, s, email)
    ensures HashedAtRegistration(env, t, email)
  {
  }

  /** The three places where a call's step opens or carries on a session, or stores a hash. */
  ghost predicate SessionStep(env: Env, s: System, request: Request, a: Action) {
    && SessionAt(env, s, request, if a.effect.Sign? then SignAccess(a.effect.jwt.user) else a.pc)
    && (a.effect.Sign? ==> match a.pc
          case SignRefresh(uid, access) => access.user == uid == a.effect.jwt.user
          case Done(Tokens(access, refresh)) => access.user == refresh.user == a.effect.jwt.user
          case _ => false)
    && (a.effect.CreateUser? ==>
          request.Register? && request.email == a.effect.user.email && MadeFrom(env, a.effect.user.passwordHash, request.password))
  }

  lemma LoginOpensSession(env: Env, s: System, id: CallId, ch: Choice)
    requires Sound(s) && id in s.calls && s.calls[id].request.Login? && s.calls[id].pc == Entry(s.calls[id].request)
    ensures SessionStep(env, s, s.calls[id].request, Begin(env, s.state.db, s.calls[id].request, s.now, ch))
  {
    var r := s.calls[id].request;
    var found := FindByEmail(s.state.db, r.email);
    if found.Some? {
      var uid := s.state.db.emails[r.email];
      assert s.state.db.users[uid].id == uid;
      if found.value.passwordHash.Some? && env.compare(found.value.passwordHash.value, r.password) {
        assert LoggedInBy(env, s, uid, id);
      }
    }
  }

  lemma OtherBeginnings(env: Env, s: System, request: Request, ch: Choice)
    requires SessionsSound(env, s) && !request.Login?
    ensures SessionStep(env, s, request, Begin(env, s.state.db, request, s.now, ch))
  {
  }

  lemma LaterSteps(env: Env, s: System, request: Request, pc: Pc, ch: Choice)
    requires SessionAt(env, s, request, pc) && !pc.Entry?
    requires pc.InsertUser? ==> request == Register(pc.email, pc.password, pc.name)
    ensures SessionStep(env, s, request, Act(env, s.state.db, pc, s.now, ch))
  {
  }

  lemma ActOnSession(env: Env, s: System, id: CallId, ch: Choice)
    requires Sound(s) && SessionsSound(env, s) && id in s.calls
    ensures SessionStep(env, s, s.calls[id].request, Act(env, s.state.db, s.calls[id].pc, s.now, ch))
  {
    assert Knows(s.state, id, s.calls[id]);
    if !s.calls[id].pc.Entry? {
      LaterSteps(env, s, s.calls[id].request, s.calls[id].pc, ch);
    } else if s.calls[id].request.Login? {
      LoginOpensSession(env, s, id, ch);
    } else {
      OtherBeginnings(env, s, s.calls[id].request, ch);
    }
  }

  /** The logins behind signatures and the other calls' sessions stay. */
  lemma OldSessionsStay(env: Env, s: System, t: System, id: CallId)
    requires SessionsSound(env, s) && Later(s, t)
    requires forall c :: c in t.calls && c != id ==> c in s.calls && t.calls[c] == s.calls[c]
    ensures forall j :: j in s.state.db.signed ==> HasLogin(env, t, j.user)
    ensures forall c :: c in t.calls && c != id ==> SessionAt(env, t, t.calls[c].request, t.calls[c].pc)
    ensures forall e :: e in s.state.db.emails ==> HashedAtRegistration(env, t, e)
  {
    forall j | j in s.state.db.signed ensures HasLogin(env, t, j.user) { LoginStays(env, s, t, j.user); }
    forall c | c in t.calls && c != id ensures SessionAt(env, t, t.calls[c].request, t.calls[c].pc) {
      SessionStays(env, s, t, t.calls[c].request, t.calls[c].pc);
    }
    forall e | e in s.state.db.emails ensures HashedAtRegistration(env, t, e) { HashStays(env, s, t, e); }
  }

  /** The acting call's session after its step. */
  lemma OwnSession(env: Env, s: System, t: System, request: Request, a: Action)
    requires Later(s, t) && SessionStep(env, s, request, a)
    ensures SessionAt(env, t, request, a.pc)
    ensures a.effect.Sign? ==> HasLogin(env, t, a.effect.jwt.user)
  {
    SessionStays(env, s, t, request, if a.effect.Sign? then SignAccess(a.effect.jwt.user) else a.pc);
  }

  lemma NewHash(env: Env, s: System, id: CallId, a: Action)
    requires id in s.calls && SessionStep(env, s, s.calls[id].request, a) && a.effect.CreateUser?
    ensures HashedAtRegistration(env, Moved(s, id, a), a.effect.user.email)
  {
  }

  lemma MovedSessions(env: Env, s: System, id: CallId, a: Action)
    requires SessionsSound(env, s) && id in s.calls && Later(s, Moved(s, id, a))
    requires SessionStep(env, s, s.calls[id].request, a)
    ensures SessionsSound(env, Moved(s, id, a))
  {
    var t := Moved(s, id, a);
    OldSessionsStay(env, s, t, id);
    OwnSession(env, s, t, s.calls[id].request, a);
    if a.effect.CreateUser? { NewHash(env, s, id, a); }
    MovedBy(s, id, a);
    assert forall c :: c in t.calls ==> SessionAt(env, t, t.calls[c].request, t.calls[c].pc);
  }

  /** What a step adds: at most its signature, its user's email and its call's new place. */
  lemma MovedBy(s: System, id: CallId, a: Action)
    requires id in s.calls
    ensures var t := Moved(s, id, a);
            && (forall e :: e in t.state.db.emails ==>
                  e in s.state.db.emails || (a.effect.CreateUser? && e == a.effect.user.email))
            && (forall j :: j in t.state.db.signed ==> j in s.state.db.signed || (a.effect.Sign? && j == a.effect.jwt))
            && t.calls == s.calls[id := s.calls[id].(pc := a.pc)]
  {
  }

  lemma RestSessions(env: Env, s: System, t: System)
    requires SessionsSound(env, s) && AtRest(s, t) && Later(s, t)
    ensures SessionsSound(env, t)
  {
    forall j | j in t.state.db.signed ensures HasLogin(env, t, j.user) { LoginStays(env, s, t, j.user); }
    forall c | c in t.calls ensures SessionAt(env, t, t.calls[c].request, t.calls[c].pc) {
      if c in s.calls { SessionStays(env, s, t, s.calls[c].request, s.calls[c].pc); }
    }
    forall e | e in t.state.db.emails ensures HashedAtRegistration(env, t, e) { HashStays(env, s, t, e); }
  }

  lemma StepSessions(env: Env, s: System, step: Step)
    requires Sound(s) && SessionsSound(env, s)
    ensures SessionsSound(env, Do(env, s, step))
  {
    StepIsLater(env, s, step);
    if step.Advance? {
      if step.id in s.calls {
        ActOnSession(env, s, step.id, step.choice);
        var a := Act(env, s.state.db, s.calls[step.id].pc, s.now, step.choice);
        MovedSessions(env, s, step.id, a);
      }
    } else {
      StepRests(env, s, step);
      RestSessions(env, s, Do(env, s, step));
    }
  }

  lemma {:induction false} RunSessions(env: Env, s: System, steps: seq<Step>)
    requires Sound(s) && SessionsSound(env, s)
    ensures SessionsSound(env, Run(env, s, steps))
    decreases |steps|
  {
    if steps != [] {
      StepSound(env, s, steps[0]);
      StepSessions(env, s, steps[0]);
      RunSessions(env, Do(env, s, steps[0]), steps[1..]);
    }
  }

  /**
    Behind every JWT stands a Login call for its user's email with a password that matches
    the user's hash, and that hash was made from the password the email was registered with.
   */
  lemma EveryTokenHasLogin(env: Env, steps: seq<Step>, jwt: Jwt.Token)
    requires jwt in Run(env, START, steps).state.db.signed
    ensures var s := Run(env, START, steps);
            exists c :: LoggedInBy(env, s, jwt.user, c) && HashedAtRegistration(env, s, s.calls[c].request.email)
  {
    StartSound();
    RunSessions(env, START, steps);
    var s := Run(env, START, steps);
    assert HasLogin(env, s, jwt.user);
    var c :| LoggedInBy(env, s, jwt.user, c);
    assert HashedAtRegistration(env, s, s.calls[c].request.email);
  }

  /** A pair handed out speaks for one user: the owner of the email logged in with, or of the token refreshed. */
  lemma PairsGoToTheirUser(env: Env, steps: seq<Step>, c: CallId, access: Jwt.Token, refresh: Jwt.Token)
    requires var s := Run(env, START, steps); c in s.calls && s.calls[c].pc == Done(Tokens(access, refresh))
    ensures var s := Run(env, START, steps);
            access.user == refresh.user && SpeaksFor(s, s.calls[c].request, access.user)
  {
    StartSound();
    RunSessions(env, START, steps);
    var s := Run(env, START, steps);
    assert SessionAt(env, s, s.calls[c].request, s.calls[c].pc);
  }
}
