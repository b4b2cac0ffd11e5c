/**
  The tables behind accounts and favorites, the history of what was done to them,
  and the atomic statements the usecases issue against them.
 */
module AccountTables {
  import opened Prelude
  import Jwt

  type CallId = nat

  datatype User = User(id: Uuid, email: string, passwordHash: Option<string>, name: Option<string>,
                       verifiedAt: Option<nat>)
  datatype TokenRow = TokenRow(email: string, token: string, expiresAt: nat)
  datatype Favorite = Favorite(user: Uuid, location: Uuid)

  /** emails is the unique index on users.email; signed stands for the JWT signatures in circulation. */
  datatype Db = Db(users: map<Uuid, User>, emails: map<string, Uuid>, tokens: map<string, TokenRow>,
                   favorites: set<Favorite>, signed: set<Jwt.Token>)

  /** One verification token stored, by which call and with which clock reading. */
  datatype Issue = Issue(email: string, token: string, issuedAt: nat, call: CallId)

  /** One user marked verified, by which call, and when that call compared the token's expiry with the clock. */
  datatype Evidence = Evidence(user: Uuid, token: string, checkedAt: nat, call: CallId)

  /** What happened so far.  No code reads it. */
  datatype History = History(registrar: map<string, CallId>, issued: seq<Issue>, evidence: seq<Evidence>,
                             added: multiset<Favorite>, removed: multiset<Favorite>)

  datatype State = State(db: Db, hist: History)

  const EMPTY: State := State(Db(map[], map[], map[], {}, {}), History(map[], [], [], multiset{}, multiset{}))

  const TOKEN_LIFETIME: nat := HOUR

  function FindByEmail(db: Db, email: string): Option<User> {
    if email in db.emails && db.emails[email] in db.users then Some(db.users[db.emails[email]]) else None
  }

  function WithoutEmail(tokens: map<string, TokenRow>, email: string): (rest: map<string, TokenRow>)
    ensures forall t :: t in rest <==> t in tokens && tokens[t].email != email
    ensures forall t :: t in rest ==> rest[t] == tokens[t]
  {
    map t | t in tokens && tokens[t].email != email :: tokens[t]
  }

  /** What one atomic statement does to the tables. */
  datatype Effect =
    | Nothing
    | CreateUser(user: User)
    | DropTokens(email: string)
    | CreateToken(row: TokenRow, issuedAt: nat)
    | MarkVerified(uid: Uuid, at: nat, token: string, checkedAt: nat)
    | Sign(jwt: Jwt.Token)
    | CreateFavorite(favorite: Favorite)
    | DropFavorite(favorite: Favorite)

  /** The tables after call c's statement. */
  function ApplyDb(db: Db, e: Effect): Db {
    match e
    case Nothing => db
    case CreateUser(u) => db.(users := db.users[u.id := u], emails := db.emails[u.email := u.id])
    case DropTokens(email) => db.(tokens := WithoutEmail(db.tokens, email))
    case CreateToken(row, _) => db.(tokens := db.tokens[row.token := row])
    case MarkVerified(uid, at, _, _) =>
      if uid in db.users then db.(users := db.users[uid := db.users[uid].(verifiedAt := Some(at))]) else db
    case Sign(jwt) => db.(signed := db.signed + {jwt})
    case CreateFavorite(f) => db.(favorites := db.favorites + {f})
    case DropFavorite(f) => db.(favorites := db.favorites - {f})
  }

  function ApplyHistory(h: History, c: CallId, e: Effect): History {
    match e
    case Nothing | DropTokens(_) | Sign(_) => h
    case CreateUser(u) => h.(registrar := h.registrar[u.email := c])
    case CreateToken(row, issuedAt) => h.(issued := h.issued + [Issue(row.email, row.token, issuedAt, c)])
    case MarkVerified(uid, _, token, checkedAt) => h.(evidence := h.evidence + [Evidence(uid, token, checkedAt, c)])
    case CreateFavorite(f) => h.(added := h.added + multiset{f})
    case DropFavorite(f) => h.(removed := h.removed + multiset{f})
  }

  function Apply(s: State, c: CallId, e: Effect): State {
    State(ApplyDb(s.db, e), ApplyHistory(s.hist, c, e))
  }
}
