/**
  The authentication usecases as they are written: ordered statements with early
  exits.  Input k is what the surroundings decide at the call's k-th statement.  Each
  method is proved to be the machine's call running alone, so its run is one of the
  runs the account theorems speak of.
 */
module AuthUsecase {
  import opened Prelude
  import opened AccountTables
  import opened AccountMachine
  import opened AccountInvariant
  import opened AccountSequential
  import opened Database
  import Jwt

  class Auth {
    const db: Tables
    const env: Env

    constructor (db: Tables, env: Env)
      ensures this.db == db && this.env == env
    {
      this.db, this.env := db, env;
    }

    method Register(email: string, password: string, name: string, io: seq<Input>, ghost c: CallId) returns (r: Result)
      requires |io| == 6 && db.Valid()
      modifies db
      ensures db.Valid()
      ensures Solo(env, old(db.State()), c, Entry(Request.Register(email, password, name)), io) == (db.State(), Done(r))
      ensures r == Success || r == Failure(ErrAlreadyExists) || r == Failure(ErrInternal)
      ensures r == Failure(ErrAlreadyExists) <==> !io[0].choice.fails && email in old(db.emails)
      ensures var uid, hash := io[1].choice.uid, env.hash(password, io[1].choice.salt);
              var drawn := io[3].choice.token;
              var created := && !io[0].choice.fails && email !in old(db.emails)
                             && hash.Some? && !io[1].choice.fails && uid !in old(db.users);
              && (!created ==> db.State() == old(db.State()))
              && (created ==> && db.users == old(db.users)[uid := User(uid, email, hash, Some(name), None)]
                              && db.emails == old(db.emails)[email := uid])
              && (r == Success <==> created && NoFailure(io) && FreeFor(old(db.tokens), drawn, email))
              && (r == Success ==> drawn in db.tokens && db.tokens[drawn] == TokenRow(email, drawn, io[3].now + HOUR))
      ensures db.signed == old(db.signed) && db.favorites == old(db.favorites)
    {
      ghost var s := db.State();
      assert io[0..] == io;
      SoloAt(env, s, c, Entry(Request.Register(email, password, name)), io, 0);
      var existing := db.FindUserByEmail(email, io[0].choice.fails);
      if existing.Broken? { return Failure(ErrInternal); }
      if existing.Row? { return Failure(ErrAlreadyExists); }
      SoloAt(env, s, c, Pc.InsertUser(email, password, name), io, 1);
      var hash := env.hash(password, io[1].choice.salt);
      if hash.None? { return Failure(ErrInternal); }
      var user := User(io[1].choice.uid, email, hash, Some(name), None);
      var created := db.InsertUser(user, io[1].choice.fails, c);
      if !created { return Failure(ErrInternal); }
      assert forall k :: 2 <= k < 6 ==> io[k] == io[2..][k - 2];
      assert NoFailure(io) <==> !io[0].choice.fails && !io[1].choice.fails && NoFailure(io[2..]);
      r := SendVerificationEmail(email, io[2..], c);
    }

    /** Once the email's own rows are gone, the table has a place for this token. */
    ghost predicate FreeFor(tokens: map<string, TokenRow>, token: string, email: string) {
      token in tokens ==> tokens[token].email == email
    }

    method SendVerificationEmail(email: string, io: seq<Input>, ghost c: CallId) returns (r: Result)
      requires |io| == 4 && db.Valid()
      modifies db
      ensures db.Valid()
      ensures Solo(env, old(db.State()), c, ClearOld(email), io) == (db.State(), Done(r))
      ensures db.users == old(db.users) && db.emails == old(db.emails)
      ensures db.signed == old(db.signed) && db.favorites == old(db.favorites)
      ensures r == Success || r == Failure(ErrInternal)
      ensures r == Success <==> NoFailure(io) && FreeFor(old(db.tokens), io[1].choice.token, email)
      ensures io[0].choice.fails ==> db.tokens == old(db.tokens)
      ensures !io[0].choice.fails ==>
                var drawn := io[1].choice.token;
                var stored := !io[1].choice.fails && !io[2].choice.fails && FreeFor(old(db.tokens), drawn, email);
                var rest := WithoutEmail(old(db.tokens), email);
                db.tokens == if stored then rest[drawn := TokenRow(email, drawn, io[1].now + HOUR)] else rest
    {
      ghost var s := db.State();
      assert io[0..] == io;
      SoloAt(env, s, c, ClearOld(email), io, 0);
      var cleared := db.DeleteTokensByEmail(email, io[0].choice.fails, c);
      if !cleared { return Failure(ErrInternal); }
      ghost var s1 := db.State();
      SoloAt(env, s1, c, DrawToken(email), io, 1);
      if io[1].choice.fails { return Failure(ErrInternal); }
      var token, issuedAt := io[1].choice.token, io[1].now;
      SoloAt(env, s1, c, StoreToken(email, token, issuedAt), io, 2);
      var row := TokenRow(email, token, issuedAt + TOKEN_LIFETIME);
      var stored := db.InsertToken(row, io[2].choice.fails, issuedAt, c);
      if !stored { return Failure(ErrInternal); }
      assert token in db.tokens && db.tokens[token] == TokenRow(email, token, io[1].now + HOUR);
      SoloAt(env, db.State(), c, SendMail, io, 3);
      if io[3].choice.fails { return Failure(ErrInternal); }
      return Success;
    }

    /** Only the right password of an existing, verified user is answered with tokens, and they name that user. */
    method Login(email: string, password: string, io: seq<Input>, ghost c: CallId) returns (r: Result)
      requires |io| == 3 && db.Valid()
      modifies db
      ensures db.Valid()
      ensures Solo(env, old(db.State()), c, Entry(Request.Login(email, password)), io) == (db.State(), Done(r))
      ensures io[0].choice.fails ==> r == Failure(ErrInternal)
      ensures !io[0].choice.fails && email !in old(db.emails) ==> r == Failure(ErrUnauthorized)
      ensures !io[0].choice.fails && email in old(db.emails) ==>
                var user := old(db.users)[old(db.emails)[email]];
                var passes := user.passwordHash.Some? && env.compare(user.passwordHash.value, password);
                && (!passes <==> r == Failure(ErrUnauthorized))
                && (passes && user.verifiedAt.None? <==> r == Failure(ErrEmailNotVerified))
                && (passes && user.verifiedAt.Some? && (io[1].choice.fails || io[2].choice.fails) <==> r == Failure(ErrInternal))
                && (passes && user.verifiedAt.Some? && !io[1].choice.fails && !io[2].choice.fails <==> r.Tokens?)
                && (r.Tokens? ==> PairFor(r, user.id, io[1].now, io[2].now))
      ensures db.State().db == old(db.State().db).(signed := db.signed)
    {
      ghost var s := db.State();
      assert io[0..] == io;
      SoloAt(env, s, c, Entry(Request.Login(email, password)), io, 0);
      var found := db.FindUserByEmail(email, io[0].choice.fails);
      if found.Broken? { return Failure(ErrInternal); }
      if found.NoRow? { return Failure(ErrUnauthorized); }
      var user := found.row;
      if user.passwordHash.None? { return Failure(ErrUnauthorized); }
      if !env.compare(user.passwordHash.value, password) { return Failure(ErrUnauthorized); }
      if user.verifiedAt.None? { return Failure(ErrEmailNotVerified); }
      r := GenerateTokenPair(user.id, io[1..], c);
    }

    method RefreshToken(token: Jwt.Token, io: seq<Input>, ghost c: CallId) returns (r: Result)
      requires |io| == 4 && db.Valid()
      modifies db
      ensures db.Valid()
      ensures Solo(env, old(db.State()), c, Entry(Refresh(token)), io) == (db.State(), Done(r))
      ensures var uid := Jwt.Validate(old(db.signed), token, env.jwt.refreshSecret, io[0].now);
              && (uid.None? <==> r == Failure(ErrInvalidToken))
              && (uid.Some? && (io[1].choice.fails || uid.value !in old(db.users)) <==> r == Failure(ErrUnauthorized))
              && (uid.Some? && !io[1].choice.fails && uid.value in old(db.users) ==>
                    if io[2].choice.fails || io[3].choice.fails then r == Failure(ErrInternal)
                    else r.Tokens? && PairFor(r, uid.value, io[2].now, io[3].now))
      ensures db.State().db == old(db.State().db).(signed := db.signed)
    {
      ghost var s := db.State();
      assert io[0..] == io;
      SoloAt(env, s, c, Entry(Refresh(token)), io, 0);
      var uid := Jwt.Validate(db.signed, token, env.jwt.refreshSecret, io[0].now);
      if uid.None? { return Failure(ErrInvalidToken); }
      SoloAt(env, s, c, FindHolder(uid.value), io, 1);
      var found := db.FindUserByID(uid.value, io[1].choice.fails);
      if !found.Row? { return Failure(ErrUnauthorized); }
      r := GenerateTokenPair(uid.value, io[2..], c);
    }

    /** A rejected token changes nothing; a success leaves the email verified and without tokens. */
    method VerifyEmail(token: string, io: seq<Input>, ghost c: CallId) returns (r: Result)
      requires |io| == 6 && db.Valid()
      modifies db
      ensures db.Valid()
      ensures Solo(env, old(db.State()), c, Entry(Request.VerifyEmail(token)), io) == (db.State(), Done(r))
      ensures io[0].choice.fails || token !in old(db.tokens) || io[1].now > old(db.tokens)[token].expiresAt
              <==> r == Failure(ErrInvalidToken)
      ensures r == Failure(ErrInvalidToken) ==> db.State() == old(db.State())
      ensures r != Failure(ErrInvalidToken) ==>
                var email := old(db.tokens)[token].email;
                var found := !io[2].choice.fails && email in old(db.emails);
                var uid := if found then old(db.emails)[email] else 0;
                var marks := found && old(db.users)[uid].verifiedAt.None? && !io[4].choice.fails;
                var ends := found && if old(db.users)[uid].verifiedAt.None? then marks && !io[5].choice.fails
                                     else !io[3].choice.fails;
                && db.users == (if marks then old(db.users)[uid := old(db.users)[uid].(verifiedAt := Some(io[3].now))]
                                else old(db.users))
                && r == if ends then Success else Failure(ErrInternal)
      ensures r != Success ==> db.tokens == old(db.tokens)
      ensures r == Success ==>
                && EmailVerified(db.Db(), old(db.tokens)[token].email)
                && db.tokens == WithoutEmail(old(db.tokens), old(db.tokens)[token].email)
      ensures db.Db() == old(db.Db()).(users := db.users, tokens := db.tokens)
    {
      VerifyEmailSolo(env, db.State(), c, token, io);
      var found := db.FindToken(token, io[0].choice.fails);
      if !found.Row? { return Failure(ErrInvalidToken); }
      var row := found.row;
      if io[1].now > row.expiresAt { return Failure(ErrInvalidToken); }
      var owner := db.FindUserByEmail(row.email, io[2].choice.fails);
      if !owner.Row? { return Failure(ErrInternal); }
      if owner.row.verifiedAt.Some? {
        var ok := db.DeleteTokensByEmail(row.email, io[3].choice.fails, c);
        if !ok { return Failure(ErrInternal); }
        return Success;
      }
      assert owner.row.id == db.emails[row.email];
      var now := io[3].now;
      var updated := db.UpdateEmailVerified(owner.row.id, now, io[4].choice.fails, row.token, io[1].now, c);
      if !updated { return Failure(ErrInternal); }
      var ok := db.DeleteTokensByEmail(row.email, io[5].choice.fails, c);
      if !ok { return Failure(ErrInternal); }
      return Success;
    }

    /**
      An access token for fifteen minutes and a refresh token for seven days, each up to the
      truncation to a whole second, both naming the user, each under its own secret.
     */
    ghost predicate PairFor(r: Result, uid: Uuid, accessAt: nat, refreshAt: nat)
      requires r.Tokens?
    {
      && r.access.user == uid && r.access.secret == env.jwt.accessSecret
      && r.access.expiresAt <= accessAt + 15 * MINUTE < r.access.expiresAt + SECOND && r.access.expiresAt % SECOND == 0
      && r.refresh.user == uid && r.refresh.secret == env.jwt.refreshSecret
      && r.refresh.expiresAt <= refreshAt + 7 * DAY < r.refresh.expiresAt + SECOND && r.refresh.expiresAt % SECOND == 0
    }

    method GenerateTokenPair(uid: Uuid, io: seq<Input>, ghost c: CallId) returns (r: Result)
      requires |io| == 2
      modifies db
      ensures Solo(env, old(db.State()), c, SignAccess(uid), io) == (db.State(), Done(r))
      ensures r.Tokens? <==> !io[0].choice.fails && !io[1].choice.fails
      ensures !r.Tokens? ==> r == Failure(ErrInternal)
      ensures r.Tokens? ==>
                PairFor(r, uid, io[0].now, io[1].now) && db.signed == old(db.signed) + {r.access, r.refresh}
      ensures db.State().db == old(db.State().db).(signed := db.signed)
    {
      ghost var s := db.State();
      assert io[0..] == io;
      SoloAt(env, s, c, SignAccess(uid), io, 0);
      var access := db.GenerateAccessToken(env.jwt, uid, io[0].now, io[0].choice.fails, c);
      if access.None? { return Failure(ErrInternal); }
      SoloAt(env, db.State(), c, SignRefresh(uid, access.value), io, 1);
      var refresh := db.GenerateRefreshToken(env.jwt, uid, io[1].now, io[1].choice.fails, c);
      if refresh.None? { return Failure(ErrInternal); }
      return Tokens(access.value, refresh.value);
    }
  }
}
