/** The repositories: one method per statement the usecases issue.  Any of them may fail, and then changes nothing. */
module Database {
  import opened Prelude
  import opened AccountTables
  import opened AccountInvariant
  import Jwt

  /** A query's answer: the row, no row, or another error. */
  datatype Found<+T> = Row(row: T) | NoRow | Broken

  class Tables {
    var users: map<Uuid, User>
    var emails: map<string, Uuid>
    var tokens: map<string, TokenRow>
    var favorites: set<Favorite>
    var signed: set<Jwt.Token>
    ghost var hist: History

    ghost function Db(): AccountTables.Db
      reads this
    {
      AccountTables.Db(users, emails, tokens, favorites, signed)
    }

    ghost function State(): AccountTables.State
      reads this
    {
      AccountTables.State(Db(), hist)
    }

    /** The primary key and the unique index of the users table. */
    ghost predicate Valid()
      reads this
    {
      IndexSound(Db())
    }

    constructor ()
      ensures State() == EMPTY && Valid()
    {
      users, emails, tokens, favorites, signed := map[], map[], map[], {}, {};
      hist := History(map[], [], [], multiset{}, multiset{});
    }

    method FindUserByEmail(email: string, fails: bool) returns (r: Found<User>)
      ensures r == if fails then Broken
                   else match FindByEmail(Db(), email) case None => NoRow case Some(u) => Row(u)
    {
      if fails { return Broken; }
      if email in emails && emails[email] in users { return Row(users[emails[email]]); }
      return NoRow;
    }

    method FindUserByID(id: Uuid, fails: bool) returns (r: Found<User>)
      ensures r == if fails then Broken else if id in users then Row(users[id]) else NoRow
    {
      if fails { return Broken; }
      if id in users { return Row(users[id]); }
      return NoRow;
    }

    method InsertUser(user: User, fails: bool, ghost c: CallId) returns (ok: bool)
      requires Valid()
      modifies this
      ensures Valid()
      ensures ok <==> !fails && user.id !in old(users) && user.email !in old(emails)
      ensures ok ==> users == old(users)[user.id := user] && emails == old(emails)[user.email := user.id]
      ensures State() == Apply(old(State()), c, if ok then CreateUser(user) else Nothing)
    {
      ok := !fails && user.id !in users && user.email !in emails;
      if ok {
        users, emails := users[user.id := user], emails[user.email := user.id];
        hist := ApplyHistory(hist, c, CreateUser(user));
      }
    }

    method UpdateEmailVerified(id: Uuid, at: nat, fails: bool, ghost token: string, ghost checkedAt: nat, ghost c: CallId)
      returns (ok: bool)
      requires Valid()
      modifies this
      ensures Valid()
      ensures ok <==> !fails && id in old(users)
      ensures State() == Apply(old(State()), c, if ok then MarkVerified(id, at, token, checkedAt) else Nothing)
    {
      ok := !fails && id in users;
      if ok {
        users := users[id := users[id].(verifiedAt := Some(at))];
        hist := ApplyHistory(hist, c, MarkVerified(id, at, token, checkedAt));
      }
    }

    method FindToken(token: string, fails: bool) returns (r: Found<TokenRow>)
      ensures r == if fails then Broken else if token in tokens then Row(tokens[token]) else NoRow
    {
      if fails { return Broken; }
      if token in tokens { return Row(tokens[token]); }
      return NoRow;
    }

    method InsertToken(row: TokenRow, fails: bool, ghost issuedAt: nat, ghost c: CallId) returns (ok: bool)
      modifies this
      ensures ok <==> !fails && row.token !in old(tokens)
      ensures State() == Apply(old(State()), c, if ok then CreateToken(row, issuedAt) else Nothing)
    {
      ok := !fails && row.token !in tokens;
      if ok {
        tokens := tokens[row.token := row];
        hist := ApplyHistory(hist, c, CreateToken(row, issuedAt));
      }
    }

    method DeleteTokensByEmail(email: string, fails: bool, ghost c: CallId) returns (ok: bool)
      modifies this
      ensures ok <==> !fails
      ensures State() == Apply(old(State()), c, if ok then DropTokens(email) else Nothing)
    {
      ok := !fails;
      if ok { tokens := WithoutEmail(tokens, email); }
    }

    method GenerateAccessToken(m: Jwt.Manager, user: Uuid, now: nat, fails: bool, ghost c: CallId)
      returns (r: Option<Jwt.Token>)
      modifies this
      ensures r == if fails then None else Some(Jwt.AccessToken(m, user, now))
      ensures State() == Apply(old(State()), c, if fails then Nothing else Sign(Jwt.AccessToken(m, user, now)))
    {
      if fails { return None; }
      r := Some(Jwt.AccessToken(m, user, now));
      signed := signed + {r.value};
    }

    method GenerateRefreshToken(m: Jwt.Manager, user: Uuid, now: nat, fails: bool, ghost c: CallId)
      returns (r: Option<Jwt.Token>)
      modifies this
      ensures r == if fails then None else Some(Jwt.RefreshToken(m, user, now))
      ensures State() == Apply(old(State()), c, if fails then Nothing else Sign(Jwt.RefreshToken(m, user, now)))
    {
      if fails { return None; }
      r := Some(Jwt.RefreshToken(m, user, now));
      signed := signed + {r.value};
    }

    method FavoriteExists(f: Favorite, fails: bool) returns (r: Option<bool>)
      ensures r == if fails then None else Some(f in favorites)
    {
      return if fails then None else Some(f in favorites);
    }

    /** The insert fails on a duplicate and on an unknown user; an unknown location is one of the failures. */
    method InsertFavorite(f: Favorite, fails: bool, ghost c: CallId) returns (ok: bool)
      modifies this
      ensures ok <==> !fails && f !in old(favorites) && f.user in old(users)
      ensures State() == Apply(old(State()), c, if ok then CreateFavorite(f) else Nothing)
    {
      ok := !fails && f !in favorites && f.user in users;
      if ok {
        favorites := favorites + {f};
        hist := ApplyHistory(hist, c, CreateFavorite(f));
      }
    }

    method DeleteFavorite(f: Favorite, fails: bool, ghost c: CallId) returns (r: Option<Error>)
      modifies this
      ensures r == if fails then Some(ErrInternal) else if f in old(favorites) then None else Some(ErrNotFound)
      ensures favorites == if r.None? then old(favorites) - {f} else old(favorites)
      ensures State() == Apply(old(State()), c, if r.None? then DropFavorite(f) else Nothing)
    {
      if fails { return Some(ErrInternal); }
      if f !in favorites { return Some(ErrNotFound); }
      favorites := favorites - {f};
      hist := ApplyHistory(hist, c, DropFavorite(f));
      return None;
    }
  }
}
