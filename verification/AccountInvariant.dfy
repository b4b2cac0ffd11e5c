/**
  The inductive invariant of the account machine, by rely and guarantee: every
  effect a call performs is justified by what the call knows (Knows), a justified
  effect keeps the tables sound and only grows the history (Guarantee), and what
  any other call knows survives such growth.
 */
module AccountInvariant {
  import opened Prelude
  import opened AccountTables
  import opened AccountMachine
  import Jwt

  ghost predicate Verified(db: Db, uid: Uuid) {
    uid in db.users && db.users[uid].verifiedAt.Some?
  }

  ghost predicate EmailVerified(db: Db, email: string) {
    email in db.emails && Verified(db, db.emails[email])
  }

  ghost predicate IssuedFor(h: History, email: string) {
    exists k :: 0 <= k < |h.issued| && h.issued[k].email == email
  }

  /** A row as some issue stored it. */
  ghost predicate RowOf(row: TokenRow, i: Issue) {
    row == TokenRow(i.email, i.token, i.issuedAt + TOKEN_LIFETIME)
  }

  ghost predicate RowIssued(h: History, row: TokenRow) {
    exists k :: 0 <= k < |h.issued| && RowOf(row, h.issued[k])
  }

  /** Everything about a user row but verifiedAt is fixed, and verifiedAt is never undone. */
  ghost predicate SameUser(a: User, b: User) {
    b.(verifiedAt := a.verifiedAt) == a && (a.verifiedAt.Some? ==> b.verifiedAt.Some?)
  }

  // ---- What holds of the tables ----

  ghost predicate IndexSound(db: Db) {
    && (forall e :: e in db.emails ==> db.emails[e] in db.users && db.users[db.emails[e]].email == e)
    && (forall u :: u in db.users ==>
          && db.users[u].id == u
          && db.users[u].email in db.emails
          && db.emails[db.users[u].email] == u)
  }

  ghost predicate IssuesSound(s: State) {
    && s.hist.registrar.Keys == s.db.emails.Keys
    && (forall k :: 0 <= k < |s.hist.issued| ==>
          && s.hist.issued[k].email in s.hist.registrar
          && s.hist.registrar[s.hist.issued[k].email] == s.hist.issued[k].call)
    && (forall j, k :: 0 <= j < k < |s.hist.issued| ==> s.hist.issued[j].email != s.hist.issued[k].email)
  }

  ghost predicate RowsSound(s: State) {
    forall t :: t in s.db.tokens ==> s.db.tokens[t].token == t && RowIssued(s.hist, s.db.tokens[t])
  }

  /** The token of an unverified user stays in the table. */
  ghost predicate RowsKept(s: State) {
    forall k :: 0 <= k < |s.hist.issued| ==>
      || EmailVerified(s.db, s.hist.issued[k].email)
      || (s.hist.issued[k].token in s.db.tokens && RowOf(s.db.tokens[s.hist.issued[k].token], s.hist.issued[k]))
  }

  /** A check of the user's own token, made in time. */
  ghost predicate GoodEvidence(s: State, uid: Uuid, v: Evidence) {
    v.user == uid && uid in s.db.users
    && exists k :: 0 <= k < |s.hist.issued|
         && s.hist.issued[k].email == s.db.users[uid].email && s.hist.issued[k].token == v.token
         && v.checkedAt <= s.hist.issued[k].issuedAt + TOKEN_LIFETIME
  }

  ghost predicate HasEvidence(s: State, uid: Uuid) {
    exists k :: 0 <= k < |s.hist.evidence| && GoodEvidence(s, uid, s.hist.evidence[k])
  }

  ghost predicate EvidenceSound(s: State) {
    forall u :: Verified(s.db, u) ==> HasEvidence(s, u)
  }

  ghost predicate SignaturesSound(db: Db) {
    forall j :: j in db.signed ==> Verified(db, j.user)
  }

  ghost predicate FavoritesSound(s: State) {
    && (forall f :: f in s.hist.added ==> Verified(s.db, f.user))
    && (forall f :: s.hist.added[f] == s.hist.removed[f] + if f in s.db.favorites then 1 else 0)
  }

  ghost predicate StateSound(s: State) {
    && IndexSound(s.db)
    && IssuesSound(s)
    && RowsSound(s)
    && RowsKept(s)
    && EvidenceSound(s)
    && SignaturesSound(s.db)
    && FavoritesSound(s)
  }

  // ---- What a call knows at each point of its program ----

  /** The registering call of an email that has no token yet. */
  ghost predicate MayIssue(s: State, c: CallId, email: string) {
    email in s.hist.registrar && s.hist.registrar[email] == c && !IssuedFor(s.hist, email)
  }

  /** The email has had its token, and no row of it is left. */
  ghost predicate Retired(s: State, email: string) {
    IssuedFor(s.hist, email) && forall t :: t in s.db.tokens ==> s.db.tokens[t].email != email
  }

  ghost predicate Spent(s: State, token: string) {
    exists k :: 0 <= k < |s.hist.issued| && s.hist.issued[k].token == token && Retired(s, s.hist.issued[k].email)
  }

  ghost predicate Presented(s: State, request: Request, row: TokenRow) {
    request == VerifyEmail(row.token) && RowIssued(s.hist, row)
  }

  ghost predicate OwnerKnown(db: Db, row: TokenRow, uid: Uuid) {
    uid in db.users && db.users[uid].email == row.email
  }

  ghost predicate Knows(s: State, c: CallId, call: Call) {
    match call.pc
    case Entry(request) => call.request == request
    case InsertUser(email, password, name) => call.request == Register(email, password, name)
    case ClearOld(email) => MayIssue(s, c, email)
    case DrawToken(email) => MayIssue(s, c, email)
    case StoreToken(email, _, _) => MayIssue(s, c, email)
    case SendMail => call.request.Register?
    case CheckExpiry(row) => Presented(s, call.request, row)
    case FindOwner(row, checkedAt) => Presented(s, call.request, row) && checkedAt <= row.expiresAt
    case ReadClock(row, checkedAt, uid) =>
      Presented(s, call.request, row) && checkedAt <= row.expiresAt && OwnerKnown(s.db, row, uid)
    case UpdateVerified(row, checkedAt, uid, _) =>
      Presented(s, call.request, row) && checkedAt <= row.expiresAt && OwnerKnown(s.db, row, uid)
    case ClearUsed(row) => Presented(s, call.request, row) && EmailVerified(s.db, row.email)
    case FindHolder(uid) => call.request.Refresh? && Verified(s.db, uid)
    case SignAccess(uid) => (call.request.Login? || call.request.Refresh?) && Verified(s.db, uid)
    case SignRefresh(uid, access) =>
      (call.request.Login? || call.request.Refresh?) && Verified(s.db, uid) && access in s.db.signed
    case CheckFavorite(f) => call.request.AddFavorite? && Subject(call.request) == Some(f) && Verified(s.db, f.user)
    case InsertFavorite(f) => call.request.AddFavorite? && Subject(call.request) == Some(f) && Verified(s.db, f.user)
    case RemoveFavorite(f) => call.request.DeleteFavorite? && Subject(call.request) == Some(f) && Verified(s.db, f.user)
    case Done(result) =>
      match result {
        case Success => call.request.VerifyEmail? ==> Spent(s, call.request.token)
        case Tokens(access, refresh) => access in s.db.signed && refresh in s.db.signed
        case Failure(_) => true
      }
    case Stopped => true
  }

  // ---- What an effect of call c needs to be sound ----

  ghost predicate Justified(s: State, c: CallId, e: Effect) {
    match e
    case Nothing => true
    case CreateUser(u) => u.id !in s.db.users && u.email !in s.db.emails && u.verifiedAt.None?
    case DropTokens(email) => !IssuedFor(s.hist, email) || EmailVerified(s.db, email)
    case CreateToken(row, issuedAt) =>
      MayIssue(s, c, row.email) && row.token !in s.db.tokens && row.expiresAt == issuedAt + TOKEN_LIFETIME
    case MarkVerified(uid, _, token, checkedAt) =>
      uid in s.db.users && GoodEvidence(s, uid, Evidence(uid, token, checkedAt, c))
    case Sign(jwt) => Verified(s.db, jwt.user)
    case CreateFavorite(f) => f !in s.db.favorites && Verified(s.db, f.user)
    case DropFavorite(f) => f in s.db.favorites
  }

  // ---- What every effect of call c guarantees to all the others ----

  ghost predicate UsersGrow(a: Db, b: Db) {
    && (forall u :: u in a.users ==> u in b.users && SameUser(a.users[u], b.users[u]))
    && (forall e :: e in a.emails ==> e in b.emails && b.emails[e] == a.emails[e])
    && a.signed <= b.signed
  }

  ghost predicate HistoryGrows(a: State, b: State, c: CallId) {
    && (forall e :: e in a.hist.registrar ==> e in b.hist.registrar && b.hist.registrar[e] == a.hist.registrar[e])
    && a.hist.issued <= b.hist.issued
    && (forall k :: |a.hist.issued| <= k < |b.hist.issued| ==> MayIssue(a, c, b.hist.issued[k].email))
    && a.hist.evidence <= b.hist.evidence
  }

  ghost predicate TokensArrive(a: State, b: State, c: CallId) {
    forall t :: t in b.db.tokens ==>
      || (t in a.db.tokens && b.db.tokens[t] == a.db.tokens[t])
      || MayIssue(a, c, b.db.tokens[t].email)
  }

  ghost predicate Guarantee(a: State, b: State, c: CallId) {
    UsersGrow(a.db, b.db) && HistoryGrows(a, b, c) && TokensArrive(a, b, c)
  }

  // ---- A justified effect keeps the tables sound ----

  lemma IssuedStays(h: History, h': History)
    requires h.issued <= h'.issued
    ensures forall email :: IssuedFor(h, email) ==> IssuedFor(h', email)
    ensures forall row :: RowIssued(h, row) ==> RowIssued(h', row)
  {
  }

  lemma VerifiedStays(a: Db, b: Db)
    requires UsersGrow(a, b)
    ensures forall u :: Verified(a, u) ==> Verified(b, u)
    ensures forall e :: EmailVerified(a, e) ==> EmailVerified(b, e)
  {
  }

  lemma EvidenceStays(a: State, b: State, uid: Uuid, v: Evidence)
    requires UsersGrow(a.db, b.db) && a.hist.issued <= b.hist.issued && GoodEvidence(a, uid, v)
    ensures GoodEvidence(b, uid, v)
  {
  }

  lemma EvidenceSoundStays(a: State, b: State)
    requires UsersGrow(a.db, b.db) && a.hist.issued <= b.hist.issued && a.hist.evidence <= b.hist.evidence
    requires forall u :: Verified(b.db, u) ==> Verified(a.db, u) || HasEvidence(b, u)
    requires EvidenceSound(a)
    ensures EvidenceSound(b)
  {
  }

  /** Rows that stay are still issued, and issues whose user stays unverified still have their row. */
  lemma RowsStay(a: State, b: State)
    requires RowsSound(a) && RowsKept(a) && UsersGrow(a.db, b.db) && a.hist.issued == b.hist.issued
    requires forall t :: t in b.db.tokens ==> t in a.db.tokens && b.db.tokens[t] == a.db.tokens[t]
    requires forall t :: t in a.db.tokens ==>
               t in b.db.tokens || !IssuedFor(a.hist, a.db.tokens[t].email) || EmailVerified(a.db, a.db.tokens[t].email)
    ensures RowsSound(b) && RowsKept(b)
  {
  }

  lemma SignaturesAndFavoritesStay(a: State, b: State)
    requires SignaturesSound(a.db) && FavoritesSound(a) && UsersGrow(a.db, b.db) && a.db.signed == b.db.signed
    requires a.db.favorites == b.db.favorites && a.hist.added == b.hist.added && a.hist.removed == b.hist.removed
    ensures SignaturesSound(b.db) && FavoritesSound(b)
  {
  }

  lemma CreateUserSound(s: State, c: CallId, u: User)
    requires StateSound(s) && Justified(s, c, CreateUser(u))
    ensures StateSound(Apply(s, c, CreateUser(u))) && Guarantee(s, Apply(s, c, CreateUser(u)), c)
  {
    var s' := Apply(s, c, CreateUser(u));
    assert UsersGrow(s.db, s'.db);
    assert IndexSound(s'.db);
    assert IssuesSound(s');
    RowsStay(s, s');
    EvidenceSoundStays(s, s');
    SignaturesAndFavoritesStay(s, s');
  }

  lemma DropTokensSound(s: State, c: CallId, email: string)
    requires StateSound(s) && Justified(s, c, DropTokens(email))
    ensures StateSound(Apply(s, c, DropTokens(email))) && Guarantee(s, Apply(s, c, DropTokens(email)), c)
  {
    var s' := Apply(s, c, DropTokens(email));
    assert UsersGrow(s.db, s'.db);
    RowsStay(s, s');
    assert forall u :: Verified(s'.db, u) ==> Verified(s.db, u);
    EvidenceSoundStays(s, s');
    SignaturesAndFavoritesStay(s, s');
  }

  lemma NewIssueIsAlone(s: State, s': State, c: CallId, i: Issue)
    requires IssuesSound(s) && MayIssue(s, c, i.email) && i.call == c
    requires s'.hist.registrar == s.hist.registrar && s'.db.emails == s.db.emails
    requires s'.hist.issued == s.hist.issued + [i]
    ensures IssuesSound(s')
  {
  }

  lemma NewRowIsSound(s: State, s': State, row: TokenRow, i: Issue)
    requires RowsSound(s) && RowsKept(s) && UsersGrow(s.db, s'.db)
    requires RowOf(row, i) && row.token !in s.db.tokens
    requires s'.db.tokens == s.db.tokens[row.token := row] && s'.hist.issued == s.hist.issued + [i]
    ensures RowsSound(s') && RowsKept(s')
  {
    VerifiedStays(s.db, s'.db);
    IssuedStays(s.hist, s'.hist);
    assert RowOf(row, s'.hist.issued[|s.hist.issued|]);
    assert forall k :: 0 <= k < |s.hist.issued| ==> s'.hist.issued[k] == s.hist.issued[k];
  }

  lemma CreateTokenSound(s: State, c: CallId, row: TokenRow, issuedAt: nat)
    requires StateSound(s) && Justified(s, c, CreateToken(row, issuedAt))
    ensures StateSound(Apply(s, c, CreateToken(row, issuedAt)))
    ensures Guarantee(s, Apply(s, c, CreateToken(row, issuedAt)), c)
  {
    var s' := Apply(s, c, CreateToken(row, issuedAt));
    var i := Issue(row.email, row.token, issuedAt, c);
    assert UsersGrow(s.db, s'.db);
    NewIssueIsAlone(s, s', c, i);
    NewRowIsSound(s, s', row, i);
    assert forall u :: Verified(s'.db, u) ==> Verified(s.db, u);
    EvidenceSoundStays(s, s');
    SignaturesAndFavoritesStay(s, s');
  }

  lemma MarkingIsEvidence(s: State, c: CallId, uid: Uuid, at: nat, token: string, checkedAt: nat)
    requires EvidenceSound(s) && Justified(s, c, MarkVerified(uid, at, token, checkedAt))
    ensures EvidenceSound(Apply(s, c, MarkVerified(uid, at, token, checkedAt)))
  {
    var s' := Apply(s, c, MarkVerified(uid, at, token, checkedAt));
    var v := Evidence(uid, token, checkedAt, c);
    EvidenceStays(s, s', uid, v);
    assert s'.hist.evidence[|s.hist.evidence|] == v;
    assert HasEvidence(s', uid);
    EvidenceSoundStays(s, s');
  }

  lemma MarkVerifiedSound(s: State, c: CallId, uid: Uuid, at: nat, token: string, checkedAt: nat)
    requires StateSound(s) && Justified(s, c, MarkVerified(uid, at, token, checkedAt))
    ensures StateSound(Apply(s, c, MarkVerified(uid, at, token, checkedAt)))
    ensures Guarantee(s, Apply(s, c, MarkVerified(uid, at, token, checkedAt)), c)
  {
    var s' := Apply(s, c, MarkVerified(uid, at, token, checkedAt));
    assert UsersGrow(s.db, s'.db);
    RowsStay(s, s');
    MarkingIsEvidence(s, c, uid, at, token, checkedAt);
    SignaturesAndFavoritesStay(s, s');
  }

  lemma SignSound(s: State, c: CallId, jwt: Jwt.Token)
    requires StateSound(s) && Justified(s, c, Sign(jwt))
    ensures StateSound(Apply(s, c, Sign(jwt))) && Guarantee(s, Apply(s, c, Sign(jwt)), c)
  {
    var s' := Apply(s, c, Sign(jwt));
    assert UsersGrow(s.db, s'.db);
    RowsStay(s, s');
    assert forall u :: Verified(s'.db, u) <==> Verified(s.db, u);
    EvidenceSoundStays(s, s');
  }

  lemma FavoriteSound(s: State, c: CallId, e: Effect)
    requires StateSound(s) && Justified(s, c, e) && (e.CreateFavorite? || e.DropFavorite?)
    ensures StateSound(Apply(s, c, e)) && Guarantee(s, Apply(s, c, e), c)
  {
    var s' := Apply(s, c, e);
    assert UsersGrow(s.db, s'.db);
    RowsStay(s, s');
    assert forall u :: Verified(s'.db, u) <==> Verified(s.db, u);
    EvidenceSoundStays(s, s');
    assert SignaturesSound(s'.db);
    assert FavoritesSound(s');
  }

  lemma EffectSound(s: State, c: CallId, e: Effect)
    requires StateSound(s) && Justified(s, c, e)
    ensures StateSound(Apply(s, c, e)) && Guarantee(s, Apply(s, c, e), c)
  {
    match e
    case Nothing =>
    case CreateUser(u) => CreateUserSound(s, c, u);
    case DropTokens(email) => DropTokensSound(s, c, email);
    case CreateToken(row, issuedAt) => CreateTokenSound(s, c, row, issuedAt);
    case MarkVerified(uid, at, token, checkedAt) => MarkVerifiedSound(s, c, uid, at, token, checkedAt);
    case Sign(jwt) => SignSound(s, c, jwt);
    case CreateFavorite(_) => FavoriteSound(s, c, e);
    case DropFavorite(_) => FavoriteSound(s, c, e);
  }
}
