/**
  Which registered emails can still become verified, in any reachable state.  Registration
  is not one transaction, so a call that stops between storing the user and storing the
  token leaves an email that can neither be registered again nor ever be verified.
 */
module AccountFates {
  import opened AccountTables
  import opened AccountMachine
  import opened AccountInvariant
  import opened AccountRely
  import opened AccountSequential

  // ---- The condition ----

  /** A VerifyEmail call past its expiry check, for a token of this email. */
  ghost predicate PastCheck(pc: Pc, email: string) {
    (pc.FindOwner? || pc.ReadClock? || pc.UpdateVerified? || pc.ClearUsed?) && pc.row.email == email
  }

  ghost predicate RowInTime(s: System, token: string, email: string) {
    token in s.state.db.tokens && s.state.db.tokens[token].email == email && s.now <= s.state.db.tokens[token].expiresAt
  }

  /** The table has an unexpired token of the email, or a call has already found it unexpired. */
  ghost predicate Live(s: System, email: string) {
    || (exists token :: RowInTime(s, token, email))
    || (exists c :: c in s.calls && PastCheck(s.calls[c].pc, email))
  }

  /**
    The call can still store a token for the email that is good when stored.  If it has drawn
    its token already, that needs a clock reading within the hour and a place in the table.
   */
  ghost predicate CanIssue(s: System, pc: Pc, email: string) {
    match pc
    case ClearOld(e) => e == email
    case DrawToken(e) => e == email
    case StoreToken(e, token, issuedAt) =>
      && e == email && s.now <= issuedAt + TOKEN_LIFETIME
      && (token in s.state.db.tokens ==> Live(s, s.state.db.tokens[token].email))
    case _ => false
  }

  ghost predicate Issuing(s: System, email: string) {
    exists c :: c in s.calls && CanIssue(s, s.calls[c].pc, email)
  }

  ghost predicate Chance(s: System, email: string) {
    Live(s, email) || Issuing(s, email)
  }

  ghost predicate Stranded(s: System, email: string) {
    email in s.state.db.emails && !EmailVerified(s.state.db, email) && !Chance(s, email)
  }

  // ---- Without a chance there never is one ----

  /** How a call's step can lead towards verification. */
  ghost predicate Follows(pc: Pc, a: Action, now: nat) {
    && (forall e :: PastCheck(a.pc, e) ==>
          PastCheck(pc, e) || (pc.CheckExpiry? && pc.row.email == e && now <= pc.row.expiresAt))
    && (a.pc.ClearOld? ==> a.effect.CreateUser? && a.effect.user.email == a.pc.email)
    && (a.pc.DrawToken? ==> pc == ClearOld(a.pc.email))
    && (a.pc.StoreToken? ==> pc == DrawToken(a.pc.email))
    && (a.effect.CreateToken? ==> pc == StoreToken(a.effect.row.email, a.effect.row.token, a.effect.issuedAt))
    && (a.effect.DropTokens? ==> pc == ClearOld(a.effect.email) || PastCheck(pc, a.effect.email))
    && (a.effect.MarkVerified? ==> pc.UpdateVerified? && pc.uid == a.effect.uid)
  }

  lemma ActFollows(env: Env, db: Db, pc: Pc, now: nat, ch: Choice)
    ensures Follows(pc, Act(env, db, pc, now, ch), now)
  {
  }

  lemma SameIssue(s: State, row: TokenRow, other: TokenRow)
    requires IssuesSound(s) && RowIssued(s.hist, row) && RowIssued(s.hist, other) && row.email == other.email
    ensures row == other
  {
  }

  /** The email's token, if there was one, is still in the table. */
  ghost predicate Rooted(s: State, email: string) {
    !EmailVerified(s.db, email) || exists t :: t in s.db.tokens && s.db.tokens[t].email == email
  }

  /** The token of an email that is not live does not pass the check. */
  lemma CheckFails(s: System, email: string, row: TokenRow)
    requires Sound(s) && Rooted(s.state, email) && !Live(s, email)
    requires RowIssued(s.state.hist, row) && row.email == email
    ensures s.now > row.expiresAt
  {
    var k :| 0 <= k < |s.state.hist.issued| && RowOf(row, s.state.hist.issued[k]);
    if EmailVerified(s.state.db, email) {
      var t :| t in s.state.db.tokens && s.state.db.tokens[t].email == email;
      SameIssue(s.state, row, s.state.db.tokens[t]);
      assert !RowInTime(s, t, email);
    } else {
      assert s.state.db.tokens[row.token] == row;
      assert !RowInTime(s, row.token, email);
    }
  }

  lemma NoRowComes(s: System, id: CallId, a: Action, email: string)
    requires Fits(s, id, a) && !Live(s, email)
    requires a.effect.CreateToken? && a.effect.row.email == email ==> s.now > a.effect.row.expiresAt
    ensures forall token :: !RowInTime(Moved(s, id, a), token, email)
  {
    forall token | RowInTime(Moved(s, id, a), token, email) ensures RowInTime(s, token, email) {
    }
  }

  lemma NotLiveStays(s: System, id: CallId, a: Action, email: string)
    requires Sound(s) && Fits(s, id, a) && Follows(s.calls[id].pc, a, s.now)
    requires !Live(s, email) && Rooted(s.state, email)
    requires a.effect.CreateToken? && a.effect.row.email == email ==> s.now > a.effect.row.expiresAt
    ensures !Live(Moved(s, id, a), email)
  {
    var t := Moved(s, id, a);
    NoRowComes(s, id, a, email);
    assert Knows(s.state, id, s.calls[id]);
    if PastCheck(a.pc, email) { CheckFails(s, email, s.calls[id].pc.row); }
    assert forall c :: c in t.calls && c != id ==> t.calls[c] == s.calls[c];
  }

  /** A row in the way of a drawn token stays there while its email is not live. */
  lemma BlockStays(s: System, id: CallId, a: Action, token: string)
    requires Sound(s) && Fits(s, id, a) && Follows(s.calls[id].pc, a, s.now)
    requires token in s.state.db.tokens && !Live(s, s.state.db.tokens[token].email)
    ensures var t := Moved(s, id, a);
            && token in t.state.db.tokens && t.state.db.tokens[token] == s.state.db.tokens[token]
            && !Live(t, s.state.db.tokens[token].email)
  {
    var row := s.state.db.tokens[token];
    assert RowIssued(s.state.hist, row);
    assert IssuedFor(s.state.hist, row.email);
    assert Knows(s.state, id, s.calls[id]);
    assert !MayIssue(s.state, id, row.email);
    NotLiveStays(s, id, a, row.email);
  }

  lemma CannotIssueStays(s: System, id: CallId, a: Action, email: string, c: CallId)
    requires Sound(s) && Fits(s, id, a) && Follows(s.calls[id].pc, a, s.now) && Stranded(s, email) && c in s.calls
    ensures !CanIssue(Moved(s, id, a), Moved(s, id, a).calls[c].pc, email)
  {
    var pc := s.calls[c].pc;
    assert !CanIssue(s, pc, email);
    if c != id && pc.StoreToken? && pc.email == email && s.now <= pc.issuedAt + TOKEN_LIFETIME {
      BlockStays(s, id, a, pc.token);
    }
  }

  lemma NotIssuingStays(s: System, id: CallId, a: Action, email: string)
    requires Sound(s) && Fits(s, id, a) && Follows(s.calls[id].pc, a, s.now) && Stranded(s, email)
    ensures !Issuing(Moved(s, id, a), email)
  {
    forall c | c in Moved(s, id, a).calls ensures !CanIssue(Moved(s, id, a), Moved(s, id, a).calls[c].pc, email) {
      CannotIssueStays(s, id, a, email, c);
    }
  }

  lemma StrandedStaysOnMove(s: System, id: CallId, a: Action, email: string)
    requires Sound(s) && Fits(s, id, a) && Follows(s.calls[id].pc, a, s.now) && Stranded(s, email)
    ensures Stranded(Moved(s, id, a), email)
  {
    assert Knows(s.state, id, s.calls[id]);
    assert !CanIssue(s, s.calls[id].pc, email) && !PastCheck(s.calls[id].pc, email);
    NotLiveStays(s, id, a, email);
    UnmarkedStaysUnverified(s.state, id, a.effect, email);
    NotIssuingStays(s, id, a, email);
  }

  lemma UnmarkedStaysUnverified(s: State, c: CallId, e: Effect, email: string)
    requires IndexSound(s.db) && Justified(s, c, e)
    requires email in s.db.emails && !EmailVerified(s.db, email)
    requires e.MarkVerified? ==> e.uid != s.db.emails[email]
    ensures email in Apply(s, c, e).db.emails && !EmailVerified(Apply(s, c, e).db, email)
  {
  }

  lemma RestRevivesNobody(s: System, t: System, email: string)
    requires AtRest(s, t) && Live(t, email)
    ensures Live(s, email)
  {
    if token :| RowInTime(t, token, email) { assert RowInTime(s, token, email); }
  }

  lemma StrandedStaysAtRest(s: System, t: System, email: string)
    requires Stranded(s, email) && AtRest(s, t)
    ensures Stranded(t, email)
  {
    forall other | Live(t, other) ensures Live(s, other) { RestRevivesNobody(s, t, other); }
    forall c | c in t.calls ensures !CanIssue(t, t.calls[c].pc, email) {
      if c in s.calls { assert !CanIssue(s, s.calls[c].pc, email); }
    }
  }

  lemma StrandedStays(env: Env, s: System, email: string, step: Step)
    requires Sound(s) && Stranded(s, email)
    ensures Stranded(Do(env, s, step), email)
  {
    if !step.Advance? {
      StepRests(env, s, step);
      StrandedStaysAtRest(s, Do(env, s, step), email);
    } else if step.id in s.calls {
      ActFits(env, s, step.id, step.choice);
      ActFollows(env, s.state.db, s.calls[step.id].pc, s.now, step.choice);
      StrandedStaysOnMove(s, step.id, Act(env, s.state.db, s.calls[step.id].pc, s.now, step.choice), email);
    }
  }

  lemma {:induction false} StrandedRunStays(env: Env, s: System, steps: seq<Step>, email: string)
    requires Sound(s) && Stranded(s, email)
    ensures Stranded(Run(env, s, steps), email)
    decreases |steps|
  {
    if steps != [] {
      StepSound(env, s, steps[0]);
      StrandedStays(env, s, email, steps[0]);
      StrandedRunStays(env, Do(env, s, steps[0]), steps[1..], email);
    }
  }

  /** A stranded email is never verified, is never free to be registered again, and no JWT ever names its user. */
  lemma StrandedForever(env: Env, steps: seq<Step>, more: seq<Step>, email: string)
    requires Stranded(Run(env, START, steps), email)
    ensures var t := Run(env, Run(env, START, steps), more).state.db;
            && email in t.emails && !EmailVerified(t, email)
            && forall jwt :: jwt in t.signed ==> jwt.user != t.emails[email]
  {
    StartSound();
    RunSound(env, START, steps);
    StrandedRunStays(env, Run(env, START, steps), more, email);
    RunSound(env, Run(env, START, steps), more);
  }

  // ---- With a chance there is a run that verifies ----

  const CALM: Choice := Choice(false, 0, "", "")

  /** No time passes, no row comes, and calls about to store a token stay where they are. */
  ghost predicate Gently(s: System, t: System) {
    && t.now == s.now
    && (forall token :: token in t.state.db.tokens ==>
          token in s.state.db.tokens && t.state.db.tokens[token] == s.state.db.tokens[token])
    && (forall c :: c in s.calls && s.calls[c].pc.StoreToken? ==> c in t.calls && t.calls[c] == s.calls[c])
  }

  /** The email is verified, and no token of it is left. */
  ghost predicate Settled(s: State, email: string) {
    EmailVerified(s.db, email) && forall token :: token in s.db.tokens ==> s.db.tokens[token].email != email
  }

  ghost predicate SettledAfter(env: Env, s: System, steps: seq<Step>, email: string) {
    Gently(s, Run(env, s, steps)) && Settled(Run(env, s, steps).state, email)
  }

  ghost predicate CanSettle(env: Env, s: System, email: string) {
    exists steps :: SettledAfter(env, s, steps, email)
  }

  lemma RunStep(env: Env, s: System, step: Step, rest: seq<Step>)
    ensures Run(env, s, [step] + rest) == Run(env, Do(env, s, step), rest)
  {
    assert ([step] + rest)[1..] == rest;
  }

  lemma SettleLater(env: Env, s: System, step: Step, email: string)
    requires Gently(s, Do(env, s, step)) && CanSettle(env, Do(env, s, step), email)
    ensures CanSettle(env, s, email)
  {
    var rest :| SettledAfter(env, Do(env, s, step), rest, email);
    RunStep(env, s, step, rest);
    assert SettledAfter(env, s, [step] + rest, email);
  }

  lemma SettleNow(env: Env, s: System, email: string)
    requires Settled(s.state, email)
    ensures CanSettle(env, s, email)
  {
    assert SettledAfter(env, s, [], email);
  }

  lemma CalmStep(env: Env, s: System, d: CallId, a: Action)
    requires d in s.calls && !s.calls[d].pc.StoreToken? && a == Act(env, s.state.db, s.calls[d].pc, s.now, CALM)
    requires a.effect.Nothing? || a.effect.DropTokens? || a.effect.MarkVerified?
    ensures Do(env, s, Advance(d, CALM)) == Moved(s, d, a) && Gently(s, Moved(s, d, a))
  {
  }

  /** If a step of the call is followed by its settling the email, so is the state before. */
  lemma CalmStepSettles(env: Env, s: System, d: CallId, a: Action, email: string)
    requires d in s.calls && !s.calls[d].pc.StoreToken? && a == Act(env, s.state.db, s.calls[d].pc, s.now, CALM)
    requires a.effect.Nothing? || a.effect.DropTokens? || a.effect.MarkVerified?
    requires CanSettle(env, Moved(s, d, a), email)
    ensures CanSettle(env, s, email)
  {
    CalmStep(env, s, d, a);
    SettleLater(env, s, Advance(d, CALM), email);
  }

  lemma CalmStepSound(env: Env, s: System, d: CallId, a: Action)
    requires Sound(s) && d in s.calls && a == Act(env, s.state.db, s.calls[d].pc, s.now, CALM)
    ensures Sound(Moved(s, d, a))
  {
    StepSound(env, s, Advance(d, CALM));
  }

  lemma ClearUsedSettles(env: Env, s: System, d: CallId)
    requires Sound(s) && d in s.calls && s.calls[d].pc.ClearUsed?
    ensures CanSettle(env, s, s.calls[d].pc.row.email)
  {
    var row := s.calls[d].pc.row;
    var a := Action(DropTokens(row.email), Done(Success));
    assert Knows(s.state, d, s.calls[d]);
    SettleNow(env, Moved(s, d, a), row.email);
    CalmStepSettles(env, s, d, a, row.email);
  }

  lemma OwnerIsThere(s: System, d: CallId)
    requires Sound(s) && d in s.calls
    ensures var pc := s.calls[d].pc;
            && (pc.UpdateVerified? ==> pc.uid in s.state.db.users)
            && (pc.FindOwner? ==> FindByEmail(s.state.db, pc.row.email).Some?)
  {
  }

  lemma UpdateSettles(env: Env, s: System, d: CallId)
    requires Sound(s) && d in s.calls && s.calls[d].pc.UpdateVerified?
    ensures CanSettle(env, s, s.calls[d].pc.row.email)
  {
    var pc := s.calls[d].pc;
    var a := Action(MarkVerified(pc.uid, pc.at, pc.row.token, pc.checkedAt), ClearUsed(pc.row));
    OwnerIsThere(s, d);
    CalmStepSound(env, s, d, a);
    ClearUsedSettles(env, Moved(s, d, a), d);
    CalmStepSettles(env, s, d, a, pc.row.email);
  }

  lemma ClockSettles(env: Env, s: System, d: CallId)
    requires Sound(s) && d in s.calls && s.calls[d].pc.ReadClock?
    ensures CanSettle(env, s, s.calls[d].pc.row.email)
  {
    var pc := s.calls[d].pc;
    var a := Goto(UpdateVerified(pc.row, pc.checkedAt, pc.uid, s.now));
    CalmStepSound(env, s, d, a);
    UpdateSettles(env, Moved(s, d, a), d);
    CalmStepSettles(env, s, d, a, pc.row.email);
  }

  lemma OwnerSettles(env: Env, s: System, d: CallId)
    requires Sound(s) && d in s.calls && s.calls[d].pc.FindOwner?
    ensures CanSettle(env, s, s.calls[d].pc.row.email)
  {
    var pc := s.calls[d].pc;
    var a := DoFindOwner(s.state.db, pc.row, pc.checkedAt, CALM);
    OwnerIsThere(s, d);
    CalmStepSound(env, s, d, a);
    if a.pc.ClearUsed? { ClearUsedSettles(env, Moved(s, d, a), d); } else { ClockSettles(env, Moved(s, d, a), d); }
    CalmStepSettles(env, s, d, a, pc.row.email);
  }

  lemma PastCheckSettles(env: Env, s: System, d: CallId, email: string)
    requires Sound(s) && d in s.calls && PastCheck(s.calls[d].pc, email)
    ensures CanSettle(env, s, email)
  {
    match s.calls[d].pc
    case FindOwner(_, _) => OwnerSettles(env, s, d);
    case ReadClock(_, _, _) => ClockSettles(env, s, d);
    case UpdateVerified(_, _, _, _) => UpdateSettles(env, s, d);
    case ClearUsed(_) => ClearUsedSettles(env, s, d);
  }

  lemma CheckSettles(env: Env, s: System, d: CallId)
    requires Sound(s) && d in s.calls && s.calls[d].pc.CheckExpiry? && s.now <= s.calls[d].pc.row.expiresAt
    ensures CanSettle(env, s, s.calls[d].pc.row.email)
  {
    var row := s.calls[d].pc.row;
    var a := Goto(FindOwner(row, s.now));
    CalmStepSound(env, s, d, a);
    OwnerSettles(env, Moved(s, d, a), d);
    CalmStepSettles(env, s, d, a, row.email);
  }

  lemma EntrySettles(env: Env, s: System, d: CallId, token: string, email: string)
    requires Sound(s) && RowInTime(s, token, email)
    requires d in s.calls && s.calls[d].pc == Entry(VerifyEmail(token))
    ensures CanSettle(env, s, email)
  {
    var a := Goto(CheckExpiry(s.state.db.tokens[token]));
    CalmStepSound(env, s, d, a);
    CheckSettles(env, Moved(s, d, a), d);
    CalmStepSettles(env, s, d, a, email);
  }

  lemma ArriveGently(env: Env, s: System, d: CallId, request: Request)
    requires d !in s.calls
    ensures Gently(s, Do(env, s, Arrive(d, request)))
  {
  }

  /** A row in time needs a VerifyEmail call to present it. */
  lemma RowSettles(env: Env, s: System, token: string, email: string)
    requires Sound(s) && RowInTime(s, token, email)
    ensures CanSettle(env, s, email)
  {
    var d := FreshId(s.calls.Keys);
    var arrive := Arrive(d, VerifyEmail(token));
    StepSound(env, s, arrive);
    EntrySettles(env, Do(env, s, arrive), d, token, email);
    ArriveGently(env, s, d, VerifyEmail(token));
    SettleLater(env, s, arrive, email);
  }

  lemma LiveSettles(env: Env, s: System, email: string)
    requires Sound(s) && Live(s, email)
    ensures CanSettle(env, s, email)
  {
    if token :| RowInTime(s, token, email) {
      RowSettles(env, s, token, email);
    } else {
      var d :| d in s.calls && PastCheck(s.calls[d].pc, email);
      PastCheckSettles(env, s, d, email);
    }
  }

  ghost predicate VerifiedAfter(env: Env, s: System, steps: seq<Step>, email: string) {
    EmailVerified(Run(env, s, steps).state.db, email)
  }

  ghost predicate Verifiable(env: Env, s: System, email: string) {
    exists steps :: VerifiedAfter(env, s, steps, email)
  }

  lemma VerifiableLater(env: Env, s: System, step: Step, email: string)
    requires Verifiable(env, Do(env, s, step), email)
    ensures Verifiable(env, s, email)
  {
    var rest :| VerifiedAfter(env, Do(env, s, step), rest, email);
    RunStep(env, s, step, rest);
    assert VerifiedAfter(env, s, [step] + rest, email);
  }

  lemma {:induction false} VerifiableFrom(env: Env, s: System, steps: seq<Step>, email: string)
    requires Verifiable(env, Run(env, s, steps), email)
    ensures Verifiable(env, s, email)
    decreases |steps|
  {
    if steps != [] {
      VerifiableFrom(env, Do(env, s, steps[0]), steps[1..], email);
      VerifiableLater(env, s, steps[0], email);
    }
  }

  lemma LiveIsVerifiable(env: Env, s: System, email: string)
    requires Sound(s) && Live(s, email)
    ensures Verifiable(env, s, email)
  {
    LiveSettles(env, s, email);
    var steps :| SettledAfter(env, s, steps, email);
    assert VerifiedAfter(env, s, steps, email);
  }

  /** The token drawn goes into a free place in the table. */
  lemma StoringIsVerifiable(env: Env, s: System, d: CallId)
    requires Sound(s) && d in s.calls && s.calls[d].pc.StoreToken?
    requires s.now <= s.calls[d].pc.issuedAt + TOKEN_LIFETIME && s.calls[d].pc.token !in s.state.db.tokens
    ensures Verifiable(env, s, s.calls[d].pc.email)
  {
    var t := Do(env, s, Advance(d, CALM));
    StepSound(env, s, Advance(d, CALM));
    assert RowInTime(t, s.calls[d].pc.token, s.calls[d].pc.email);
    LiveIsVerifiable(env, t, s.calls[d].pc.email);
    VerifiableLater(env, s, Advance(d, CALM), s.calls[d].pc.email);
  }

  /** A row in its place goes once the row's own email is settled. */
  lemma BlockedIsVerifiable(env: Env, s: System, d: CallId)
    requires Sound(s) && d in s.calls && s.calls[d].pc.StoreToken?
    requires s.now <= s.calls[d].pc.issuedAt + TOKEN_LIFETIME
    requires s.calls[d].pc.token in s.state.db.tokens && Live(s, s.state.db.tokens[s.calls[d].pc.token].email)
    ensures Verifiable(env, s, s.calls[d].pc.email)
  {
    var other := s.state.db.tokens[s.calls[d].pc.token].email;
    LiveSettles(env, s, other);
    var steps :| SettledAfter(env, s, steps, other);
    RunSound(env, s, steps);
    StoringIsVerifiable(env, Run(env, s, steps), d);
    VerifiableFrom(env, s, steps, s.calls[d].pc.email);
  }

  lemma {:induction false} LongerThanAll(tokens: set<string>) returns (n: nat)
    ensures forall t :: t in tokens ==> |t| < n
    decreases |tokens|
  {
    if tokens == {} {
      n := 0;
    } else {
      var t :| t in tokens;
      var m := LongerThanAll(tokens - {t});
      n := if m <= |t| then |t| + 1 else m;
      assert forall u :: u in tokens ==> u == t || u in tokens - {t};
    }
  }

  lemma DrawingIsVerifiable(env: Env, s: System, d: CallId)
    requires Sound(s) && d in s.calls && s.calls[d].pc.DrawToken?
    ensures Verifiable(env, s, s.calls[d].pc.email)
  {
    var n := LongerThanAll(s.state.db.tokens.Keys);
    var draw := Advance(d, CALM.(token := seq(n, _ => '0')));
    StepSound(env, s, draw);
    StoringIsVerifiable(env, Do(env, s, draw), d);
    VerifiableLater(env, s, draw, s.calls[d].pc.email);
  }

  lemma ClearingIsVerifiable(env: Env, s: System, d: CallId)
    requires Sound(s) && d in s.calls && s.calls[d].pc.ClearOld?
    ensures Verifiable(env, s, s.calls[d].pc.email)
  {
    StepSound(env, s, Advance(d, CALM));
    DrawingIsVerifiable(env, Do(env, s, Advance(d, CALM)), d);
    VerifiableLater(env, s, Advance(d, CALM), s.calls[d].pc.email);
  }

  lemma ChanceIsVerifiable(env: Env, s: System, email: string)
    requires Sound(s) && Chance(s, email)
    ensures Verifiable(env, s, email)
  {
    if Live(s, email) {
      LiveIsVerifiable(env, s, email);
    } else {
      var d :| d in s.calls && CanIssue(s, s.calls[d].pc, email);
      match s.calls[d].pc
      case ClearOld(_) => ClearingIsVerifiable(env, s, d);
      case DrawToken(_) => DrawingIsVerifiable(env, s, d);
      case StoreToken(_, token, _) =>
        if token in s.state.db.tokens { BlockedIsVerifiable(env, s, d); } else { StoringIsVerifiable(env, s, d); }
    }
  }

  // ---- Both together ----

  /**
    In every reachable state, with any calls in flight, a registered, unverified email can
    become verified in some future exactly if it has a chance.
   */
  lemma VerifiableIffChance(env: Env, steps: seq<Step>, email: string)
    requires var db := Run(env, START, steps).state.db; email in db.emails && !EmailVerified(db, email)
    ensures var s := Run(env, START, steps);
            (exists more :: VerifiedAfter(env, s, more, email)) <==> Chance(s, email)
  {
    var s := Run(env, START, steps);
    StartSound();
    RunSound(env, START, steps);
    if Chance(s, email) {
      ChanceIsVerifiable(env, s, email);
    } else {
      forall more ensures !VerifiedAfter(env, s, more, email) {
        StrandedRunStays(env, s, more, email);
      }
    }
  }

  /** Once every call has been answered or has stopped, the token table alone decides. */
  lemma VerifiableIffTokenInTime(env: Env, steps: seq<Step>, email: string)
    requires var db := Run(env, START, steps).state.db; email in db.emails && !EmailVerified(db, email)
    requires var s := Run(env, START, steps); forall c :: c in s.calls ==> s.calls[c].pc.Done? || s.calls[c].pc.Stopped?
    ensures var s := Run(env, START, steps);
            (exists more :: VerifiedAfter(env, s, more, email)) <==> exists token :: RowInTime(s, token, email)
  {
    VerifiableIffChance(env, steps, email);
  }

  /** A Register call that stops after its insert of the user strands the email. */
  lemma RegistrationCanStrand(env: Env, email: string, password: string, name: string, ch: Choice)
    requires !ch.fails && env.hash(password, ch.salt).Some?
    ensures var crash := [Arrive(0, Register(email, password, name)), Advance(0, ch), Advance(0, ch), Halt(0)];
            Stranded(Run(env, START, crash), email)
  {
    var request := Register(email, password, name);
    var s1 := Do(env, START, Arrive(0, request));
    var s2 := Do(env, s1, Advance(0, ch));
    var s3 := Do(env, s2, Advance(0, ch));
    RunStep(env, START, Arrive(0, request), [Advance(0, ch), Advance(0, ch), Halt(0)]);
    RunStep(env, s1, Advance(0, ch), [Advance(0, ch), Halt(0)]);
    RunStep(env, s2, Advance(0, ch), [Halt(0)]);
    RunStep(env, s3, Halt(0), []);
    assert s2 == System(0, EMPTY, map[0 := Call(request, InsertUser(email, password, name))]);
    assert s3.calls[0].pc == ClearOld(email);
  }
}
