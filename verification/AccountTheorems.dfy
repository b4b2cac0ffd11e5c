/** Safety of accounts and favorites over whole runs: any requests, in any interleaving, any step failing or never coming. */
module AccountTheorems {
  import opened Prelude
  import opened AccountTables
  import opened AccountMachine
  import opened AccountInvariant
  import opened AccountRely
  import Jwt

  // ---- What any further run leaves in place ----

  /** b is a possible future of a. */
  ghost predicate Later(a: System, b: System) {
    && a.now <= b.now
    && UsersGrow(a.state.db, b.state.db)
    && a.state.hist.issued <= b.state.hist.issued
    && (forall e :: e in a.state.hist.registrar ==>
          e in b.state.hist.registrar && b.state.hist.registrar[e] == a.state.hist.registrar[e])
    && (forall e :: Retired(a.state, e) ==> Retired(b.state, e))
    && (forall c :: c in a.calls ==>
          && c in b.calls && b.calls[c].request == a.calls[c].request
          && (a.calls[c].pc.Done? ==> b.calls[c] == a.calls[c]))
  }

  ghost predicate CallsStay(a: System, b: System) {
    forall d :: d in a.calls ==>
      && d in b.calls && b.calls[d].request == a.calls[d].request
      && (a.calls[d].pc.Done? ==> b.calls[d] == a.calls[d])
  }

  lemma GuaranteeIsLater(a: System, b: System, c: CallId)
    requires Guarantee(a.state, b.state, c) && a.now <= b.now && CallsStay(a, b)
    ensures Later(a, b)
  {
  }

  lemma AnsweredCallIsIdle(env: Env, db: Db, pc: Pc, now: nat, ch: Choice)
    requires pc.Done?
    ensures Act(env, db, pc, now, ch) == Goto(pc)
  {
  }

  lemma AdvanceIsLater(env: Env, s: System, id: CallId, ch: Choice)
    requires Sound(s) && id in s.calls
    ensures Later(s, Do(env, s, Advance(id, ch)))
  {
    AdvanceSound(env, s, id, ch);
    if s.calls[id].pc.Done? { AnsweredCallIsIdle(env, s.state.db, s.calls[id].pc, s.now, ch); }
    GuaranteeIsLater(s, Do(env, s, Advance(id, ch)), id);
  }

  lemma StepIsLater(env: Env, s: System, step: Step)
    requires Sound(s)
    ensures Later(s, Do(env, s, step))
  {
    if step.Advance? {
      if step.id in s.calls { AdvanceIsLater(env, s, step.id, step.choice); }
    } else {
      StepRests(env, s, step);
    }
  }

  lemma LaterIsTransitive(a: System, b: System, c: System)
    requires Later(a, b) && Later(b, c)
    ensures Later(a, c)
  {
  }

  /** Users, verifications, issued tokens, signatures and answers are never taken back. */
  lemma {:induction false} RunIsLater(env: Env, s: System, steps: seq<Step>)
    requires Sound(s)
    ensures Later(s, Run(env, s, steps))
    decreases |steps|
  {
    if steps != [] {
      StepSound(env, s, steps[0]);
      StepIsLater(env, s, steps[0]);
      RunIsLater(env, Do(env, s, steps[0]), steps[1..]);
      LaterIsTransitive(s, Do(env, s, steps[0]), Run(env, s, steps));
    }
  }

  // ---- Tokens and the middleware ----

  /** Every JWT ever signed names a user who was verified by then and is verified in every later state. */
  lemma SignedOnlyForVerified(env: Env, steps: seq<Step>, more: seq<Step>, jwt: Jwt.Token)
    requires jwt in Run(env, START, steps).state.db.signed
    ensures var s := Run(env, START, steps);
            Verified(s.state.db, jwt.user) && Verified(Run(env, s, more).state.db, jwt.user)
  {
    var s := Run(env, START, steps);
    StartSound();
    RunSound(env, START, steps);
    RunIsLater(env, s, more);
    VerifiedStays(s.state.db, Run(env, s, more).state.db);
  }

  /** Whoever passes the middleware, or refreshes, with whatever token, is a verified user. */
  lemma AcceptedOnlyIfVerified(env: Env, steps: seq<Step>, presented: Jwt.Token, secret: string, now: nat)
    requires Jwt.Validate(Run(env, START, steps).state.db.signed, presented, secret, now).Some?
    ensures Verified(Run(env, START, steps).state.db,
                     Jwt.Validate(Run(env, START, steps).state.db.signed, presented, secret, now).value)
  {
    SignedOnlyForVerified(env, steps, [], presented);
  }

  /** Every favorite ever inserted belongs to a user who was verified by then, as is every row in the table. */
  lemma FavoritesOnlyOfVerified(env: Env, steps: seq<Step>, f: Favorite)
    ensures var s := Run(env, START, steps).state;
            f in s.hist.added || f in s.db.favorites ==> Verified(s.db, f.user)
  {
    StartSound();
    RunSound(env, START, steps);
    var s := Run(env, START, steps).state;
    assert s.hist.added[f] == s.hist.removed[f] + if f in s.db.favorites then 1 else 0;
  }

  // ---- Verification tokens ----

  /**
    At most one verification token is ever stored per email, by the call that registered
    the email; and every row in the table is such a token of an existing user.
   */
  lemma OneTokenPerEmail(env: Env, steps: seq<Step>)
    ensures var s := Run(env, START, steps); var issued := s.state.hist.issued;
            && (forall j, k :: 0 <= j < k < |issued| ==> issued[j].email != issued[k].email)
            && (forall k :: 0 <= k < |issued| ==>
                  && FindByEmail(s.state.db, issued[k].email).Some?
                  && issued[k].call in s.calls
                  && s.calls[issued[k].call].request.Register?
                  && s.calls[issued[k].call].request.email == issued[k].email)
            && (forall t :: t in s.state.db.tokens ==>
                  exists k :: 0 <= k < |issued| && issued[k].token == t && RowOf(s.state.db.tokens[t], issued[k]))
  {
    StartSound();
    RunSound(env, START, steps);
    var s := Run(env, START, steps);
    forall t | t in s.state.db.tokens
      ensures exists k :: 0 <= k < |s.state.hist.issued| && s.state.hist.issued[k].token == t
                          && RowOf(s.state.db.tokens[t], s.state.hist.issued[k])
    {
      assert RowIssued(s.state.hist, s.state.db.tokens[t]);
    }
  }

  /** How a user became verified: which call presented which issued token, and when it looked at the clock. */
  ghost predicate VerifiedBy(s: System, uid: Uuid, v: Evidence, i: Issue) {
    && v in s.state.hist.evidence && i in s.state.hist.issued
    && v.user == uid
    && v.call in s.calls && s.calls[v.call].request == VerifyEmail(i.token)
    && uid in s.state.db.users && i.email == s.state.db.users[uid].email
    && i.call in s.calls && s.calls[i.call].request.Register? && s.calls[i.call].request.email == i.email
    && i.email in s.state.hist.registrar && s.state.hist.registrar[i.email] == i.call
    && v.checkedAt <= i.issuedAt + HOUR
  }

  /**
    A user is verified only by a VerifyEmail call that presented the token issued by the very
    Register call that created the user, and that compared the clock within the hour.
   */
  lemma VerifiedOnlyByOwnToken(env: Env, steps: seq<Step>, uid: Uuid)
    requires Verified(Run(env, START, steps).state.db, uid)
    ensures exists v, i :: VerifiedBy(Run(env, START, steps), uid, v, i)
  {
    StartSound();
    RunSound(env, START, steps);
    var s := Run(env, START, steps);
    assert HasEvidence(s.state, uid);
    var k :| 0 <= k < |s.state.hist.evidence| && GoodEvidence(s.state, uid, s.state.hist.evidence[k]);
    var v := s.state.hist.evidence[k];
    var n :| 0 <= n < |s.state.hist.issued|
      && s.state.hist.issued[n].email == s.state.db.users[uid].email && s.state.hist.issued[n].token == v.token
      && v.checkedAt <= s.state.hist.issued[n].issuedAt + TOKEN_LIFETIME;
    assert VerifiedBy(s, uid, v, s.state.hist.issued[n]);
  }

  /** Verification is never undone, and nothing else in a user's row ever changes. */
  lemma VerificationIsForever(env: Env, steps: seq<Step>, more: seq<Step>, uid: Uuid)
    requires uid in Run(env, START, steps).state.db.users
    ensures var s := Run(env, START, steps); var t := Run(env, s, more);
            uid in t.state.db.users && SameUser(s.state.db.users[uid], t.state.db.users[uid])
  {
    StartSound();
    RunSound(env, START, steps);
    RunIsLater(env, Run(env, START, steps), more);
  }

  // ---- A token that has verified its email ----

  /** The random token was stored at most once. */
  ghost predicate NoRepeat(issued: seq<Issue>, token: string) {
    forall j, k :: 0 <= j < k < |issued| ==> issued[j].token != token || issued[k].token != token
  }

  /** A call that has got nowhere with its token. */
  ghost predicate Turned(call: Call, token: string) {
    call.pc == Entry(VerifyEmail(token)) || call.pc == Done(Failure(ErrInvalidToken)) || call.pc.Stopped?
  }

  lemma SpentTokenHasNoRow(s: State, token: string)
    requires RowsSound(s) && Spent(s, token) && NoRepeat(s.hist.issued, token)
    ensures token !in s.db.tokens
  {
  }

  lemma TurnedStays(env: Env, db: Db, call: Call, token: string, now: nat, ch: Choice)
    requires Turned(call, token) && token !in db.tokens
    ensures Turned(call.(pc := Act(env, db, call.pc, now, ch).pc), token)
  {
  }

  lemma SpentTokenTurnsCall(env: Env, s: System, step: Step, token: string, d: CallId)
    requires Sound(s) && Spent(s.state, token) && NoRepeat(s.state.hist.issued, token)
    requires d in s.calls && s.calls[d].request == VerifyEmail(token) ==> Turned(s.calls[d], token)
    ensures var t := Do(env, s, step);
            d in t.calls && t.calls[d].request == VerifyEmail(token) ==> Turned(t.calls[d], token)
  {
    if !step.Advance? {
      StepRests(env, s, step);
    } else if d in s.calls && s.calls[d].request == VerifyEmail(token) {
      SpentTokenHasNoRow(s.state, token);
      TurnedStays(env, s.state.db, s.calls[d], token, s.now, step.choice);
    }
  }

  lemma {:induction false} SpentTokenTurnsRun(env: Env, s: System, steps: seq<Step>, token: string, d: CallId)
    requires Sound(s) && Spent(s.state, token)
    requires NoRepeat(Run(env, s, steps).state.hist.issued, token)
    requires d in s.calls && s.calls[d].request == VerifyEmail(token) ==> Turned(s.calls[d], token)
    ensures var t := Run(env, s, steps);
            d in t.calls && t.calls[d].request == VerifyEmail(token) ==> Turned(t.calls[d], token)
    decreases |steps|
  {
    if steps != [] {
      var s1 := Do(env, s, steps[0]);
      RunIsLater(env, s, steps);
      SpentTokenTurnsCall(env, s, steps[0], token, d);
      StepSound(env, s, steps[0]);
      StepIsLater(env, s, steps[0]);
      LaterKeepsSpent(s, s1, token);
      SpentTokenTurnsRun(env, s1, steps[1..], token, d);
    }
  }

  lemma LaterKeepsSpent(a: System, b: System, token: string)
    requires Later(a, b) && Spent(a.state, token)
    ensures Spent(b.state, token)
  {
  }

  lemma SuccessSpends(s: System, c: CallId, token: string)
    requires CallsSound(s) && c in s.calls && s.calls[c] == Call(VerifyEmail(token), Done(Success))
    ensures Spent(s.state, token)
  {
  }

  /** Once a VerifyEmail call has succeeded, its token's email has no token row in any later state. */
  lemma VerifiedEmailKeepsNoToken(env: Env, steps: seq<Step>, more: seq<Step>, c: CallId, token: string)
    requires var s := Run(env, START, steps); c in s.calls && s.calls[c] == Call(VerifyEmail(token), Done(Success))
    ensures Spent(Run(env, Run(env, START, steps), more).state, token)
  {
    var s := Run(env, START, steps);
    StartSound();
    RunSound(env, START, steps);
    SuccessSpends(s, c, token);
    RunIsLater(env, s, more);
    LaterKeepsSpent(s, Run(env, s, more), token);
  }

  /**
    And every VerifyEmail call with that token that arrives later is answered with
    ErrInvalidToken if it is answered at all, unless this token was drawn a second time.
   */
  lemma SuccessfulTokenIsSpent(env: Env, steps: seq<Step>, more: seq<Step>, c: CallId, token: string, d: CallId)
    requires var s := Run(env, START, steps); c in s.calls && s.calls[c] == Call(VerifyEmail(token), Done(Success))
    requires d !in Run(env, START, steps).calls
    requires NoRepeat(Run(env, Run(env, START, steps), more).state.hist.issued, token)
    ensures var t := Run(env, Run(env, START, steps), more);
            && token !in t.state.db.tokens
            && (d in t.calls && t.calls[d].request == VerifyEmail(token) ==> Turned(t.calls[d], token))
  {
    var s := Run(env, START, steps);
    StartSound();
    RunSound(env, START, steps);
    SuccessSpends(s, c, token);
    VerifiedEmailKeepsNoToken(env, steps, more, c, token);
    RunSound(env, s, more);
    SpentTokenHasNoRow(Run(env, s, more).state, token);
    SpentTokenTurnsRun(env, s, more, token, d);
  }
}
