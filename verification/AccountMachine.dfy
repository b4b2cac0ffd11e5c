/**
  The account and favorites usecases as an interleaved step machine.  No usecase
  uses a transaction: each is a sequence of atomic steps, one per table statement
  or clock reading, between which any other request may run, and after any of
  which the call may stop for good.
 */
module AccountMachine {
  import opened Prelude
  import opened AccountTables
  import Jwt

  /** Secrets and the bcrypt functions; hash is None where bcrypt reports an error. */
  datatype Env = Env(jwt: Jwt.Manager, hash: (string, string) -> Option<string>, compare: (string, string) -> bool)

  /** bcrypt accepts a password against any hash made from it. */
  ghost predicate LawfulBcrypt(env: Env) {
    forall password: string, salt: string ::
      env.hash(password, salt).Some? ==> env.compare(env.hash(password, salt).value, password)
  }

  datatype Request =
    | Register(email: string, password: string, name: string)
    | Login(email: string, password: string)
    | Refresh(refreshToken: Jwt.Token)
    | VerifyEmail(token: string)
    | AddFavorite(accessToken: Jwt.Token, location: Uuid)
    | DeleteFavorite(accessToken: Jwt.Token, location: Uuid)

  /** The favorite a request is about, in the name of its token's user. */
  function Subject(request: Request): Option<Favorite> {
    match request
    case AddFavorite(t, location) => Some(Favorite(t.user, location))
    case DeleteFavorite(t, location) => Some(Favorite(t.user, location))
    case _ => None
  }

  datatype Result = Success | Tokens(access: Jwt.Token, refresh: Jwt.Token) | Failure(error: Error)

  /** Where a call stands: its next step, with the local variables that step uses. */
  datatype Pc =
    | Entry(request: Request)
    | InsertUser(email: string, password: string, name: string)
    | ClearOld(email: string)
    | DrawToken(email: string)
    | StoreToken(email: string, token: string, issuedAt: nat)
    | SendMail
    | CheckExpiry(row: TokenRow)
    | FindOwner(row: TokenRow, checkedAt: nat)
    | ReadClock(row: TokenRow, checkedAt: nat, uid: Uuid)
    | UpdateVerified(row: TokenRow, checkedAt: nat, uid: Uuid, at: nat)
    | ClearUsed(row: TokenRow)
    | FindHolder(uid: Uuid)
    | SignAccess(uid: Uuid)
    | SignRefresh(uid: Uuid, access: Jwt.Token)
    | CheckFavorite(favorite: Favorite)
    | InsertFavorite(favorite: Favorite)
    | RemoveFavorite(favorite: Favorite)
    | Done(result: Result)
    | Stopped

  /** What the surroundings decide at a step: whether the operation fails, and the random values drawn. */
  datatype Choice = Choice(fails: bool, uid: Uuid, salt: string, token: string)

  datatype Action = Action(effect: Effect, pc: Pc)

  function Goto(pc: Pc): Action { Action(Nothing, pc) }

  function Fail(error: Error): Action { Action(Nothing, Done(Failure(error))) }

  /** The first statement of a call. */
  function Begin(env: Env, db: Db, request: Request, now: nat, ch: Choice): Action {
    match request
    case Register(email, password, name) =>
      if ch.fails then Fail(ErrInternal)
      else if FindByEmail(db, email).Some? then Fail(ErrAlreadyExists)
      else Goto(InsertUser(email, password, name))
    case Login(email, password) =>
      if ch.fails then Fail(ErrInternal) else CheckCredentials(env, FindByEmail(db, email), password)
    case Refresh(t) =>
      var uid := Jwt.Validate(db.signed, t, env.jwt.refreshSecret, now);
      if uid.None? then Fail(ErrInvalidToken) else Goto(FindHolder(uid.value))
    case VerifyEmail(token) =>
      if ch.fails || token !in db.tokens then Fail(ErrInvalidToken) else Goto(CheckExpiry(db.tokens[token]))
    case AddFavorite(t, location) =>
      var uid := Jwt.Validate(db.signed, t, env.jwt.accessSecret, now);
      if uid.None? then Fail(ErrUnauthorized) else Goto(CheckFavorite(Favorite(uid.value, location)))
    case DeleteFavorite(t, location) =>
      var uid := Jwt.Validate(db.signed, t, env.jwt.accessSecret, now);
      if uid.None? then Fail(ErrUnauthorized) else Goto(RemoveFavorite(Favorite(uid.value, location)))
  }

  /** Login's checks on the row it has read. */
  function CheckCredentials(env: Env, found: Option<User>, password: string): Action {
    match found
    case None => Fail(ErrUnauthorized)
    case Some(user) =>
      if user.passwordHash.None? then Fail(ErrUnauthorized)
      else if !env.compare(user.passwordHash.value, password) then Fail(ErrUnauthorized)
      else if user.verifiedAt.None? then Fail(ErrEmailNotVerified)
      else Goto(SignAccess(user.id))
  }

  /** The insert fails on an error, on a taken id and on a taken email. */
  function DoInsertUser(env: Env, db: Db, email: string, password: string, name: string, ch: Choice): Action {
    var hash := env.hash(password, ch.salt);
    if hash.None? || ch.fails || ch.uid in db.users || email in db.emails then Fail(ErrInternal)
    else Action(CreateUser(User(ch.uid, email, hash, Some(name), None)), ClearOld(email))
  }

  function DoFindOwner(db: Db, row: TokenRow, checkedAt: nat, ch: Choice): Action {
    var found := FindByEmail(db, row.email);
    if ch.fails || found.None? then Fail(ErrInternal)
    else if found.value.verifiedAt.Some? then Goto(ClearUsed(row))
    else Goto(ReadClock(row, checkedAt, found.value.id))
  }

  /** The next step of a call: its effect on the tables and where the call stands afterwards. */
  function Act(env: Env, db: Db, pc: Pc, now: nat, ch: Choice): Action {
    match pc
    case Entry(request) => Begin(env, db, request, now, ch)
    case InsertUser(email, password, name) => DoInsertUser(env, db, email, password, name, ch)
    case ClearOld(email) =>
      if ch.fails then Fail(ErrInternal) else Action(DropTokens(email), DrawToken(email))
    case DrawToken(email) =>
      if ch.fails then Fail(ErrInternal) else Goto(StoreToken(email, ch.token, now))
    case StoreToken(email, token, issuedAt) =>
      if ch.fails || token in db.tokens then Fail(ErrInternal)
      else Action(CreateToken(TokenRow(email, token, issuedAt + TOKEN_LIFETIME), issuedAt), SendMail)
    case SendMail => if ch.fails then Fail(ErrInternal) else Goto(Done(Success))
    case CheckExpiry(row) => if now > row.expiresAt then Fail(ErrInvalidToken) else Goto(FindOwner(row, now))
    case FindOwner(row, checkedAt) => DoFindOwner(db, row, checkedAt, ch)
    case ReadClock(row, checkedAt, uid) => Goto(UpdateVerified(row, checkedAt, uid, now))
    case UpdateVerified(row, checkedAt, uid, at) =>
      if ch.fails || uid !in db.users then Fail(ErrInternal)
      else Action(MarkVerified(uid, at, row.token, checkedAt), ClearUsed(row))
    case ClearUsed(row) =>
      if ch.fails then Fail(ErrInternal) else Action(DropTokens(row.email), Done(Success))
    case FindHolder(uid) =>
      if ch.fails || uid !in db.users then Fail(ErrUnauthorized) else Goto(SignAccess(uid))
    case SignAccess(uid) =>
      if ch.fails then Fail(ErrInternal)
      else var t := Jwt.AccessToken(env.jwt, uid, now); Action(Sign(t), SignRefresh(uid, t))
    case SignRefresh(uid, access) =>
      if ch.fails then Fail(ErrInternal)
      else var t := Jwt.RefreshToken(env.jwt, uid, now); Action(Sign(t), Done(Tokens(access, t)))
    case CheckFavorite(f) =>
      if ch.fails then Fail(ErrInternal)
      else if f in db.favorites then Fail(ErrAlreadyExists)
      else Goto(InsertFavorite(f))
    case InsertFavorite(f) =>
      if ch.fails || f in db.favorites || f.user !in db.users then Fail(ErrInternal)
      else Action(CreateFavorite(f), Done(Success))
    case RemoveFavorite(f) =>
      if ch.fails then Fail(ErrInternal)
      else if f !in db.favorites then Fail(ErrNotFound)
      else Action(DropFavorite(f), Done(Success))
    case Done(_) | Stopped => Goto(pc)
  }

  /** A call remembers its request; calls are never forgotten. */
  datatype Call = Call(request: Request, pc: Pc)

  datatype System = System(now: nat, state: State, calls: map<CallId, Call>)

  datatype Step =
    | Tick(duration: nat)
    | Arrive(id: CallId, request: Request)
    | Advance(id: CallId, choice: Choice)
    | Halt(id: CallId)

  /** Call id has performed an action. */
  function Moved(s: System, id: CallId, a: Action): System
    requires id in s.calls
  {
    System(s.now, Apply(s.state, id, a.effect), s.calls[id := s.calls[id].(pc := a.pc)])
  }

  function Do(env: Env, s: System, step: Step): System {
    match step
    case Tick(duration) => s.(now := s.now + duration)
    case Arrive(id, request) =>
      if id in s.calls then s else s.(calls := s.calls[id := Call(request, Entry(request))])
    case Advance(id, ch) =>
      if id !in s.calls then s
      else
        Moved(s, id, Act(env, s.state.db, s.calls[id].pc, s.now, ch))
    case Halt(id) =>
      if id !in s.calls || s.calls[id].pc.Done? then s
      else s.(calls := s.calls[id := s.calls[id].(pc := Stopped)])
  }

  function Run(env: Env, s: System, steps: seq<Step>): System
    decreases |steps|
  {
    if steps == [] then s else Run(env, Do(env, s, steps[0]), steps[1..])
  }

  /** The tables start empty. */
  const START: System := System(0, EMPTY, map[])

  /** One call running alone: at step k the clock shows io[k].now. */
  datatype Input = Input(now: nat, choice: Choice)

  function Solo(env: Env, s: State, c: CallId, pc: Pc, io: seq<Input>): (State, Pc)
    decreases |io|
  {
    if io == [] || pc.Done? then (s, pc)
    else
      var a := Act(env, s.db, pc, io[0].now, io[0].choice);
      Solo(env, Apply(s, c, a.effect), c, a.pc, io[1..])
  }
}
