/** What the usecases do when nothing interferes: one call after the other, and one call repeated after a crash. */
module AccountSequential {
  import opened Prelude
  import opened AccountTables
  import opened AccountMachine
  import opened AccountInvariant
  import opened AccountRely
  import Jwt

  lemma FreshId(ids: set<CallId>) returns (d: CallId)
    ensures forall c :: c in ids ==> c < d
    ensures d !in ids
    decreases |ids|
  {
    if ids == {} {
      d := 0;
    } else {
      var c :| c in ids;
      var e := FreshId(ids - {c});
      d := if e <= c then c + 1 else e;
      assert forall k :: k in ids ==> k == c || k in ids - {c};
    }
  }

  ghost predicate Forward(now: nat, io: seq<Input>) {
    && (io != [] ==> now <= io[0].now)
    && forall j, k :: 0 <= j < k < |io| ==> io[j].now <= io[k].now
  }

  ghost predicate NoFailure(io: seq<Input>) {
    forall k :: 0 <= k < |io| ==> !io[k].choice.fails
  }

  /** The machine steps that play a call's inputs with nobody else running. */
  function Schedule(d: CallId, now: nat, io: seq<Input>): seq<Step>
    decreases |io|
  {
    if io == [] then []
    else
      [Tick(if io[0].now >= now then io[0].now - now else 0), Advance(d, io[0].choice)]
      + Schedule(d, io[0].now, io[1..])
  }

  /** One call running alone is a run of the machine, so whatever holds of all runs holds of it. */
  lemma {:induction false} SoloIsRun(env: Env, s: System, d: CallId, io: seq<Input>)
    requires d in s.calls && Forward(s.now, io)
    ensures var t := Run(env, s, Schedule(d, s.now, io));
            d in t.calls && (t.state, t.calls[d].pc) == Solo(env, s.state, d, s.calls[d].pc, io)
    decreases |io|
  {
    if io != [] {
      var steps := Schedule(d, s.now, io);
      var s1 := Do(env, s, steps[0]);
      var s2 := Do(env, s1, steps[1]);
      var a := Act(env, s.state.db, s.calls[d].pc, io[0].now, io[0].choice);
      assert s2 == System(io[0].now, Apply(s.state, d, a.effect), s.calls[d := s.calls[d].(pc := a.pc)]);
      assert steps[1..][1..] == Schedule(d, io[0].now, io[1..]);
      assert Run(env, s, steps) == Run(env, s1, steps[1..]) == Run(env, s2, steps[1..][1..]);
      SoloIsRun(env, s2, d, io[1..]);
      if s.calls[d].pc.Done? { SoloAnswered(env, s.state, d, a.pc, io[1..]); }
    }
  }

  lemma SoloAnswered(env: Env, s: State, c: CallId, pc: Pc, io: seq<Input>)
    requires pc.Done?
    ensures Solo(env, s, c, pc, io) == (s, pc)
  {
  }

  lemma SoloAt(env: Env, s: State, c: CallId, pc: Pc, io: seq<Input>, k: nat)
    requires k < |io| && !pc.Done?
    ensures var a := Act(env, s.db, pc, io[k].now, io[k].choice);
            Solo(env, s, c, pc, io[k..]) == Solo(env, Apply(s, c, a.effect), c, a.pc, io[k + 1..])
  {
  }

  ghost predicate Registering(call: Call) {
    call.pc.ClearOld? || call.pc.DrawToken? || call.pc.StoreToken? ==> call.request.Register?
  }

  ghost predicate Fit(s: State, c: CallId, call: Call) {
    StateSound(s) && Knows(s, c, call) && Registering(call)
  }

  lemma RegisteringStep(env: Env, s: State, c: CallId, call: Call, i: Input)
    requires StateSound(s) && Knows(s, c, call) && Registering(call)
    ensures Registering(call.(pc := Act(env, s.db, call.pc, i.now, i.choice).pc))
  {
    if call.pc.Entry? { BeginSound(env, s, c, call.pc.request, i.now, i.choice); }
  }

  lemma FitStep(env: Env, s: State, c: CallId, call: Call, i: Input)
    requires Fit(s, c, call)
    ensures var a := Act(env, s.db, call.pc, i.now, i.choice); Fit(Apply(s, c, a.effect), c, call.(pc := a.pc))
  {
    var a := Act(env, s.db, call.pc, i.now, i.choice);
    ActJustified(env, s, c, call, i.now, i.choice);
    EffectSound(s, c, a.effect);
    ActKnows(env, s, c, call, i.now, i.choice);
    RegisteringStep(env, s, c, call, i);
  }

  /** A call running alone keeps the tables sound. */
  lemma {:induction false} SoloSound(env: Env, s: State, c: CallId, call: Call, io: seq<Input>)
    requires Fit(s, c, call)
    ensures StateSound(Solo(env, s, c, call.pc, io).0)
    decreases |io|
  {
    if io != [] && !call.pc.Done? {
      FitStep(env, s, c, call, io[0]);
      var a := Act(env, s.db, call.pc, io[0].now, io[0].choice);
      SoloSound(env, Apply(s, c, a.effect), c, call.(pc := a.pc), io[1..]);
    }
  }

  // ---- VerifyEmail ----

  lemma PresentAt(env: Env, s: State, c: CallId, token: string, io: seq<Input>, k: nat)
    requires k < |io|
    ensures Solo(env, s, c, Entry(VerifyEmail(token)), io[k..])
         == if io[k].choice.fails || token !in s.db.tokens then (s, Done(Failure(ErrInvalidToken)))
            else Solo(env, s, c, CheckExpiry(s.db.tokens[token]), io[k + 1..])
  {
  }

  lemma CheckAt(env: Env, s: State, c: CallId, row: TokenRow, io: seq<Input>, k: nat)
    requires k < |io|
    ensures Solo(env, s, c, CheckExpiry(row), io[k..])
         == if io[k].now > row.expiresAt then (s, Done(Failure(ErrInvalidToken)))
            else Solo(env, s, c, FindOwner(row, io[k].now), io[k + 1..])
  {
  }

  lemma OwnerAt(env: Env, s: State, c: CallId, row: TokenRow, checkedAt: nat, io: seq<Input>, k: nat)
    requires k < |io|
    ensures Solo(env, s, c, FindOwner(row, checkedAt), io[k..])
         == var found := FindByEmail(s.db, row.email);
            if io[k].choice.fails || found.None? then (s, Done(Failure(ErrInternal)))
            else if found.value.verifiedAt.Some? then Solo(env, s, c, ClearUsed(row), io[k + 1..])
            else Solo(env, s, c, ReadClock(row, checkedAt, found.value.id), io[k + 1..])
  {
  }

  lemma ClockAt(env: Env, s: State, c: CallId, row: TokenRow, checkedAt: nat, uid: Uuid, io: seq<Input>, k: nat)
    requires k < |io|
    ensures Solo(env, s, c, ReadClock(row, checkedAt, uid), io[k..])
         == Solo(env, s, c, UpdateVerified(row, checkedAt, uid, io[k].now), io[k + 1..])
  {
  }

  lemma UpdateAt(env: Env, s: State, c: CallId, row: TokenRow, checkedAt: nat, uid: Uuid, at: nat, io: seq<Input>, k: nat)
    requires k < |io|
    ensures Solo(env, s, c, UpdateVerified(row, checkedAt, uid, at), io[k..])
         == if io[k].choice.fails || uid !in s.db.users then (s, Done(Failure(ErrInternal)))
            else Solo(env, Apply(s, c, MarkVerified(uid, at, row.token, checkedAt)), c, ClearUsed(row), io[k + 1..])
  {
  }

  lemma ClearAt(env: Env, s: State, c: CallId, row: TokenRow, io: seq<Input>, k: nat)
    requires k < |io|
    ensures Solo(env, s, c, ClearUsed(row), io[k..])
         == if io[k].choice.fails then (s, Done(Failure(ErrInternal)))
            else (Apply(s, c, DropTokens(row.email)), Done(Success))
  {
  }

  /** A VerifyEmail call running alone, whatever fails. */
  lemma VerifyEmailSolo(env: Env, s: State, c: CallId, token: string, io: seq<Input>)
    requires |io| == 6 && IndexSound(s.db)
    ensures Solo(env, s, c, Entry(VerifyEmail(token)), io) ==
              if io[0].choice.fails || token !in s.db.tokens || io[1].now > s.db.tokens[token].expiresAt then
                (s, Done(Failure(ErrInvalidToken)))
              else
                var row := s.db.tokens[token];
                var owner := FindByEmail(s.db, row.email);
                if io[2].choice.fails || owner.None? then (s, Done(Failure(ErrInternal)))
                else if owner.value.verifiedAt.Some? then
                  if io[3].choice.fails then (s, Done(Failure(ErrInternal)))
                  else (Apply(s, c, DropTokens(row.email)), Done(Success))
                else if io[4].choice.fails then (s, Done(Failure(ErrInternal)))
                else
                  var marked := Apply(s, c, MarkVerified(owner.value.id, io[3].now, row.token, io[1].now));
                  if io[5].choice.fails then (marked, Done(Failure(ErrInternal)))
                  else (Apply(marked, c, DropTokens(row.email)), Done(Success))
  {
    assert io[0..] == io;
    PresentAt(env, s, c, token, io, 0);
    if !io[0].choice.fails && token in s.db.tokens {
      var row := s.db.tokens[token];
      var owner := FindByEmail(s.db, row.email);
      CheckAt(env, s, c, row, io, 1);
      OwnerAt(env, s, c, row, io[1].now, io, 2);
      if owner.Some? && owner.value.verifiedAt.Some? {
        ClearAt(env, s, c, row, io, 3);
      } else if owner.Some? {
        assert owner.value.id == s.db.emails[row.email];
        ClockAt(env, s, c, row, io[1].now, owner.value.id, io, 3);
        UpdateAt(env, s, c, row, io[1].now, owner.value.id, io[3].now, io, 4);
        ClearAt(env, Apply(s, c, MarkVerified(owner.value.id, io[3].now, row.token, io[1].now)), c, row, io, 5);
      }
    }
  }

  /** An unverified owner, found with a token in time. */
  ghost predicate CanVerify(s: State, token: string, checkedAt: nat) {
    && StateSound(s)
    && token in s.db.tokens && checkedAt <= s.db.tokens[token].expiresAt
    && !EmailVerified(s.db, s.db.tokens[token].email)
  }

  function Marked(s: State, c: CallId, token: string, checkedAt: nat, at: nat): State
    requires token in s.db.tokens && s.db.tokens[token].email in s.db.emails
  {
    Apply(s, c, MarkVerified(s.db.emails[s.db.tokens[token].email], at, token, checkedAt))
  }

  lemma TokenHasOwner(s: State, token: string)
    requires StateSound(s) && token in s.db.tokens
    ensures FindByEmail(s.db, s.db.tokens[token].email).Some?
  {
  }

  /** Up to the update of the user: five steps. */
  lemma VerifyEmailUpToUpdate(env: Env, s: State, c: CallId, token: string, io: seq<Input>)
    requires |io| >= 5 && NoFailure(io) && CanVerify(s, token, io[1].now)
    ensures s.db.tokens[token].email in s.db.emails
    ensures Solo(env, s, c, Entry(VerifyEmail(token)), io)
         == Solo(env, Marked(s, c, token, io[1].now, io[3].now), c, ClearUsed(s.db.tokens[token]), io[5..])
  {
    var row := s.db.tokens[token];
    TokenHasOwner(s, token);
    var uid := s.db.emails[row.email];
    assert s.db.users[uid].id == uid;
    assert io[0..] == io;
    PresentAt(env, s, c, token, io, 0);
    CheckAt(env, s, c, row, io, 1);
    OwnerAt(env, s, c, row, io[1].now, io, 2);
    ClockAt(env, s, c, row, io[1].now, uid, io, 3);
    UpdateAt(env, s, c, row, io[1].now, uid, io[3].now, io, 4);
  }

  /** Undisturbed and in time, VerifyEmail marks the token's owner and removes the email's tokens. */
  lemma VerifyEmailAlone(env: Env, s: State, c: CallId, token: string, io: seq<Input>)
    requires |io| >= 6 && NoFailure(io) && CanVerify(s, token, io[1].now)
    ensures s.db.tokens[token].email in s.db.emails
    ensures var (t, pc) := Solo(env, s, c, Entry(VerifyEmail(token)), io);
            && pc == Done(Success)
            && t == Apply(Marked(s, c, token, io[1].now, io[3].now), c, DropTokens(s.db.tokens[token].email))
            && EmailVerified(t.db, s.db.tokens[token].email)
            && t.db.users[s.db.emails[s.db.tokens[token].email]].verifiedAt == Some(io[3].now)
  {
    TokenHasOwner(s, token);
    VerifyEmailUpToUpdate(env, s, c, token, io);
    ClearAt(env, Marked(s, c, token, io[1].now, io[3].now), c, s.db.tokens[token], io, 5);
  }

  /** With the owner already verified, only the tokens go. */
  lemma VerifyEmailAgain(env: Env, s: State, c: CallId, token: string, io: seq<Input>)
    requires |io| >= 4 && NoFailure(io) && token in s.db.tokens && io[1].now <= s.db.tokens[token].expiresAt
    requires EmailVerified(s.db, s.db.tokens[token].email)
    ensures Solo(env, s, c, Entry(VerifyEmail(token)), io)
         == (Apply(s, c, DropTokens(s.db.tokens[token].email)), Done(Success))
  {
    var row := s.db.tokens[token];
    assert io[0..] == io;
    PresentAt(env, s, c, token, io, 0);
    CheckAt(env, s, c, row, io, 1);
    OwnerAt(env, s, c, row, io[1].now, io, 2);
    ClearAt(env, s, c, row, io, 3);
  }

  /**
    Crash recovery: a VerifyEmail call stopped between updating the user and deleting the
    token, then repeated with the same token in time, ends in exactly the state the
    uninterrupted call leaves, and keeps the first verification time.
   */
  lemma RepeatAfterCrash(env: Env, s: State, c: CallId, again: CallId, token: string, io: seq<Input>, io': seq<Input>)
    requires |io| >= 6 && NoFailure(io) && CanVerify(s, token, io[1].now)
    requires |io'| >= 4 && NoFailure(io') && io'[1].now <= s.db.tokens[token].expiresAt
    ensures var crashed := Solo(env, s, c, Entry(VerifyEmail(token)), io[..5]).0;
            var (t, pc) := Solo(env, crashed, again, Entry(VerifyEmail(token)), io');
            && (t, pc) == Solo(env, s, c, Entry(VerifyEmail(token)), io)
            && crashed.db.users == t.db.users
  {
    VerifyEmailAlone(env, s, c, token, io);
    assert NoFailure(io[..5]);
    VerifyEmailUpToUpdate(env, s, c, token, io[..5]);
    var crashed := Marked(s, c, token, io[1].now, io[3].now);
    assert Solo(env, s, c, Entry(VerifyEmail(token)), io[..5]).0 == crashed;
    TokenHasOwner(s, token);
    VerifyEmailAgain(env, crashed, again, token, io');
  }

  // ---- From registration to a refreshed token ----

  /** Undisturbed, with a new id and a new token, Register stores the user and one token good for an hour. */
  lemma RegisterAlone(env: Env, s: State, c: CallId, email: string, password: string, name: string, io: seq<Input>)
    requires |io| >= 6 && NoFailure(io) && email !in s.db.emails
    requires io[1].choice.uid !in s.db.users && env.hash(password, io[1].choice.salt).Some?
    requires io[3].choice.token !in WithoutEmail(s.db.tokens, email)
    ensures var (t, pc) := Solo(env, s, c, Entry(Register(email, password, name)), io);
            && pc == Done(Success)
            && t.db == s.db.(
                 users := s.db.users[io[1].choice.uid := User(io[1].choice.uid, email, env.hash(password, io[1].choice.salt), Some(name), None)],
                 emails := s.db.emails[email := io[1].choice.uid],
                 tokens := WithoutEmail(s.db.tokens, email)[io[3].choice.token := TokenRow(email, io[3].choice.token, io[3].now + HOUR)])
  {
    var u := User(io[1].choice.uid, email, env.hash(password, io[1].choice.salt), Some(name), None);
    var s1 := Apply(s, c, CreateUser(u));
    var s2 := Apply(s1, c, DropTokens(email));
    assert io[0..] == io;
    SoloAt(env, s, c, Entry(Register(email, password, name)), io, 0);
    SoloAt(env, s, c, InsertUser(email, password, name), io, 1);
    SoloAt(env, s1, c, ClearOld(email), io, 2);
    SoloAt(env, s2, c, DrawToken(email), io, 3);
    SoloAt(env, s2, c, StoreToken(email, io[3].choice.token, io[3].now), io, 4);
    var row := TokenRow(email, io[3].choice.token, io[3].now + HOUR);
    SoloAt(env, Apply(s2, c, CreateToken(row, io[3].now)), c, SendMail, io, 5);
  }

  /** Undisturbed, Login with the right password of a verified user signs a pair in that user's name. */
  lemma LoginAlone(env: Env, s: State, c: CallId, email: string, password: string, io: seq<Input>)
    requires |io| >= 3 && NoFailure(io) && IndexSound(s.db) && EmailVerified(s.db, email)
    requires var h := s.db.users[s.db.emails[email]].passwordHash; h.Some? && env.compare(h.value, password)
    ensures var uid := s.db.emails[email];
            var access, refresh := Jwt.AccessToken(env.jwt, uid, io[1].now), Jwt.RefreshToken(env.jwt, uid, io[2].now);
            var (t, pc) := Solo(env, s, c, Entry(Login(email, password)), io);
            pc == Done(Tokens(access, refresh)) && t.db == s.db.(signed := s.db.signed + {access, refresh})
  {
    var uid := s.db.emails[email];
    assert s.db.users[uid].id == uid;
    assert io[0..] == io;
    var access := Jwt.AccessToken(env.jwt, uid, io[1].now);
    SoloAt(env, s, c, Entry(Login(email, password)), io, 0);
    SoloAt(env, s, c, SignAccess(uid), io, 1);
    SoloAt(env, Apply(s, c, Sign(access)), c, SignRefresh(uid, access), io, 2);
    var refresh := Jwt.RefreshToken(env.jwt, uid, io[2].now);
    assert s.db.signed + {access} + {refresh} == s.db.signed + {access, refresh};
  }

  /** A signed, unexpired refresh token of an existing user is answered with a new pair for the same user. */
  lemma RefreshAlone(env: Env, s: State, c: CallId, token: Jwt.Token, io: seq<Input>)
    requires |io| >= 4 && NoFailure(io)
    requires Jwt.Validate(s.db.signed, token, env.jwt.refreshSecret, io[0].now).Some? && token.user in s.db.users
    ensures var access := Jwt.AccessToken(env.jwt, token.user, io[2].now);
            var refresh := Jwt.RefreshToken(env.jwt, token.user, io[3].now);
            var (t, pc) := Solo(env, s, c, Entry(Refresh(token)), io);
            pc == Done(Tokens(access, refresh)) && t.db == s.db.(signed := s.db.signed + {access, refresh})
  {
    assert io[0..] == io;
    var access := Jwt.AccessToken(env.jwt, token.user, io[2].now);
    SoloAt(env, s, c, Entry(Refresh(token)), io, 0);
    SoloAt(env, s, c, FindHolder(token.user), io, 1);
    SoloAt(env, s, c, SignAccess(token.user), io, 2);
    SoloAt(env, Apply(s, c, Sign(access)), c, SignRefresh(token.user, access), io, 3);
    var refresh := Jwt.RefreshToken(env.jwt, token.user, io[3].now);
    assert s.db.signed + {access} + {refresh} == s.db.signed + {access, refresh};
  }

  /** The inputs of four calls made one after the other for one email, as a new user would. */
  ghost predicate Journey(env: Env, s: State, email: string, password: string,
                          register: seq<Input>, verify: seq<Input>, login: seq<Input>, refresh: seq<Input>)
  {
    && LawfulBcrypt(env) && StateSound(s) && email !in s.db.emails
    && NoFailure(register) && NoFailure(verify) && NoFailure(login) && NoFailure(refresh)
    && |register| == 6 && |verify| == 6 && |login| == 3 && |refresh| == 4
    && register[1].choice.uid !in s.db.users && env.hash(password, register[1].choice.salt).Some?
    && register[3].choice.token !in s.db.tokens
    && verify[1].now <= register[3].now + HOUR
    && refresh[0].now + SECOND <= login[2].now + 7 * DAY
  }

  /** After registration the token can be used. */
  lemma JourneyRegisters(env: Env, s: State, email: string, password: string, name: string, c: CallId,
                         register: seq<Input>, verify: seq<Input>, login: seq<Input>, refresh: seq<Input>)
    returns (s1: State)
    requires Journey(env, s, email, password, register, verify, login, refresh)
    ensures Solo(env, s, c, Entry(Register(email, password, name)), register) == (s1, Done(Success))
    ensures CanVerify(s1, register[3].choice.token, verify[1].now)
    ensures s1.db.tokens[register[3].choice.token].email == email && email in s1.db.emails
    ensures s1.db.emails[email] == register[1].choice.uid && register[1].choice.uid in s1.db.users
    ensures s1.db.users[register[1].choice.uid].passwordHash == env.hash(password, register[1].choice.salt)
  {
    RegisterAlone(env, s, c, email, password, name, register);
    var r := Register(email, password, name);
    SoloSound(env, s, c, Call(r, Entry(r)), register);
    s1 := Solo(env, s, c, Entry(r), register).0;
  }

  /** After verification the password opens the account. */
  lemma JourneyVerifies(env: Env, s1: State, email: string, password: string, salt: string, token: string,
                        c: CallId, verify: seq<Input>)
    returns (s2: State)
    requires |verify| == 6 && NoFailure(verify) && CanVerify(s1, token, verify[1].now)
    requires s1.db.tokens[token].email == email && email in s1.db.emails && s1.db.emails[email] in s1.db.users
    requires LawfulBcrypt(env) && env.hash(password, salt).Some?
    requires s1.db.users[s1.db.emails[email]].passwordHash == env.hash(password, salt)
    ensures Solo(env, s1, c, Entry(VerifyEmail(token)), verify) == (s2, Done(Success))
    ensures IndexSound(s2.db) && EmailVerified(s2.db, email) && s2.db.emails == s1.db.emails
    ensures var h := s2.db.users[s2.db.emails[email]].passwordHash; h.Some? && env.compare(h.value, password)
  {
    VerifyEmailAlone(env, s1, c, token, verify);
    var v := VerifyEmail(token);
    SoloSound(env, s1, c, Call(v, Entry(v)), verify);
    s2 := Solo(env, s1, c, Entry(v), verify).0;
  }

  /** Register, VerifyEmail, Login and Refresh, undisturbed and in time, end with a token pair for the new user. */
  lemma JourneySucceeds(env: Env, s: State, email: string, password: string, name: string, c: CallId,
                        register: seq<Input>, verify: seq<Input>, login: seq<Input>, refresh: seq<Input>)
    requires Journey(env, s, email, password, register, verify, login, refresh)
    ensures var uid := register[1].choice.uid;
            var (s1, p1) := Solo(env, s, c, Entry(Register(email, password, name)), register);
            var (s2, p2) := Solo(env, s1, c + 1, Entry(VerifyEmail(register[3].choice.token)), verify);
            var (s3, p3) := Solo(env, s2, c + 2, Entry(Login(email, password)), login);
            && p1 == p2 == Done(Success)
            && p3.Done? && p3.result.Tokens? && p3.result.access.user == p3.result.refresh.user == uid
            && var (s4, p4) := Solo(env, s3, c + 3, Entry(Refresh(p3.result.refresh)), refresh);
               p4.Done? && p4.result.Tokens? && p4.result.access.user == p4.result.refresh.user == uid
  {
    var uid := register[1].choice.uid;
    var s1 := JourneyRegisters(env, s, email, password, name, c, register, verify, login, refresh);
    var s2 := JourneyVerifies(env, s1, email, password, register[1].choice.salt, register[3].choice.token, c + 1, verify);
    LoginAlone(env, s2, c + 2, email, password, login);
    var s3 := Solo(env, s2, c + 2, Entry(Login(email, password)), login).0;
    RefreshAlone(env, s3, c + 3, Jwt.RefreshToken(env.jwt, uid, login[2].now), refresh);
  }
}
