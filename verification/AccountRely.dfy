/**
  What calls know, kept true: by the calls' own steps (ActKnows) and by every step
  of the others (KnowledgeStays).
 */
module AccountRely {
  import opened AccountTables
  import opened AccountMachine
  import opened AccountInvariant

  /** Credentials pass only for a verified user, by the name the row carries. */
  lemma CredentialsSound(env: Env, s: State, c: CallId, email: string, password: string)
    requires IndexSound(s.db)
    ensures var a := CheckCredentials(env, FindByEmail(s.db, email), password);
            a.effect == Nothing && Knows(s, c, Call(Login(email, password), a.pc))
  {
    var found := FindByEmail(s.db, email);
    if found.Some? {
      assert s.db.users[s.db.emails[email]].id == s.db.emails[email];
    }
  }

  /** A first step leaves a call with knowledge that is true. */
  lemma BeginSound(env: Env, s: State, c: CallId, request: Request, now: nat, ch: Choice)
    requires StateSound(s)
    ensures Begin(env, s.db, request, now, ch).effect == Nothing
    ensures Knows(s, c, Call(request, Begin(env, s.db, request, now, ch).pc))
  {
    if request.Login? { CredentialsSound(env, s, c, request.email, request.password); }
  }

  /** Every step of a call, from any point, does only what is justified. */
  lemma ActJustified(env: Env, s: State, c: CallId, call: Call, now: nat, ch: Choice)
    requires StateSound(s) && Knows(s, c, call)
    ensures Justified(s, c, Act(env, s.db, call.pc, now, ch).effect)
  {
  }

  lemma RegisterStepKnows(env: Env, s: State, c: CallId, call: Call, now: nat, ch: Choice)
    requires StateSound(s) && Knows(s, c, call)
    requires call.pc.InsertUser? || call.pc.ClearOld? || call.pc.DrawToken? || call.pc.StoreToken? || call.pc.SendMail?
    requires call.request.Register?
    ensures var a := Act(env, s.db, call.pc, now, ch); Knows(Apply(s, c, a.effect), c, call.(pc := a.pc))
  {
  }

  /** After its own token deletion a call of VerifyEmail has spent its token. */
  lemma ClearUsedSpends(s: State, c: CallId, row: TokenRow)
    requires StateSound(s) && RowIssued(s.hist, row)
    ensures Spent(Apply(s, c, DropTokens(row.email)), row.token)
  {
    var s' := Apply(s, c, DropTokens(row.email));
    var k :| 0 <= k < |s.hist.issued| && RowOf(row, s.hist.issued[k]);
    assert s'.hist.issued[k].email == row.email;
    assert IssuedFor(s'.hist, row.email);
    assert Retired(s', s'.hist.issued[k].email);
  }

  lemma OwnerStepKnows(env: Env, s: State, c: CallId, call: Call, now: nat, ch: Choice)
    requires StateSound(s) && Knows(s, c, call) && call.pc.FindOwner?
    ensures var a := Act(env, s.db, call.pc, now, ch); Knows(Apply(s, c, a.effect), c, call.(pc := a.pc))
  {
  }

  lemma VerifyStepKnows(env: Env, s: State, c: CallId, call: Call, now: nat, ch: Choice)
    requires StateSound(s) && Knows(s, c, call)
    requires call.pc.CheckExpiry? || call.pc.FindOwner? || call.pc.ReadClock? || call.pc.UpdateVerified? || call.pc.ClearUsed?
    ensures var a := Act(env, s.db, call.pc, now, ch); Knows(Apply(s, c, a.effect), c, call.(pc := a.pc))
  {
    var a := Act(env, s.db, call.pc, now, ch);
    var s' := Apply(s, c, a.effect);
    match call.pc
    case FindOwner(_, _) => OwnerStepKnows(env, s, c, call, now, ch);
    case UpdateVerified(row, _, uid, _) =>
      assert RowIssued(s'.hist, row) by { IssuedStays(s.hist, s'.hist); }
    case ClearUsed(row) => ClearUsedSpends(s, c, row);
    case _ =>
  }

  /** Every step of a call leaves it with knowledge that is true. */
  lemma ActKnows(env: Env, s: State, c: CallId, call: Call, now: nat, ch: Choice)
    requires StateSound(s) && Knows(s, c, call)
    requires call.pc.ClearOld? || call.pc.DrawToken? || call.pc.StoreToken? ==> call.request.Register?
    ensures var a := Act(env, s.db, call.pc, now, ch); Knows(Apply(s, c, a.effect), c, call.(pc := a.pc))
  {
    match call.pc
    case Entry(request) => BeginSound(env, s, c, request, now, ch);
    case InsertUser(_, _, _) => RegisterStepKnows(env, s, c, call, now, ch);
    case ClearOld(_) => RegisterStepKnows(env, s, c, call, now, ch);
    case DrawToken(_) => RegisterStepKnows(env, s, c, call, now, ch);
    case StoreToken(_, _, _) => RegisterStepKnows(env, s, c, call, now, ch);
    case SendMail => RegisterStepKnows(env, s, c, call, now, ch);
    case CheckExpiry(_) => VerifyStepKnows(env, s, c, call, now, ch);
    case FindOwner(_, _) => VerifyStepKnows(env, s, c, call, now, ch);
    case ReadClock(_, _, _) => VerifyStepKnows(env, s, c, call, now, ch);
    case UpdateVerified(_, _, _, _) => VerifyStepKnows(env, s, c, call, now, ch);
    case ClearUsed(_) => VerifyStepKnows(env, s, c, call, now, ch);
    case _ =>
  }

  /** What a call knows survives every step of another call. */
  lemma KnowledgeStays(a: State, b: State, c: CallId, other: CallId, call: Call)
    requires Guarantee(a, b, c) && c != other && Knows(a, other, call)
    ensures Knows(b, other, call)
  {
  }

  // ---- The whole system ----

  /** The history names real calls: a registrar asked to register that email, and evidence comes from presenting the token. */
  ghost predicate LogsSound(s: System) {
    && (forall e :: e in s.state.hist.registrar ==>
          && s.state.hist.registrar[e] in s.calls
          && s.calls[s.state.hist.registrar[e]].request.Register?
          && s.calls[s.state.hist.registrar[e]].request.email == e)
    && (forall k :: 0 <= k < |s.state.hist.evidence| ==>
          && s.state.hist.evidence[k].call in s.calls
          && s.calls[s.state.hist.evidence[k].call].request == VerifyEmail(s.state.hist.evidence[k].token))
  }

  ghost predicate CallsSound(s: System) {
    forall c :: c in s.calls ==> Knows(s.state, c, s.calls[c])
  }

  ghost predicate Sound(s: System) {
    StateSound(s.state) && LogsSound(s) && CallsSound(s)
  }

  lemma StartSound()
    ensures Sound(START)
  {
  }

  /** What an action must satisfy: justified, its call's knowledge true afterwards, and in line with its request. */
  ghost predicate Fits(s: System, id: CallId, a: Action) {
    && id in s.calls
    && Justified(s.state, id, a.effect)
    && Knows(Apply(s.state, id, a.effect), id, s.calls[id].(pc := a.pc))
    && (a.effect.CreateUser? ==> s.calls[id].request.Register? && s.calls[id].request.email == a.effect.user.email)
    && (a.effect.MarkVerified? ==> s.calls[id].request == VerifyEmail(a.effect.token))
  }

  /** Users are created and verified only at these two points, for the email and the token the call carries. */
  lemma EffectOrigin(env: Env, db: Db, pc: Pc, now: nat, ch: Choice)
    ensures var e := Act(env, db, pc, now, ch).effect;
            && (e.CreateUser? ==> pc.InsertUser? && e.user.email == pc.email)
            && (e.MarkVerified? ==> pc.UpdateVerified? && e.token == pc.row.token)
            && (e.CreateToken? ==> pc.StoreToken? && e.row.email == pc.email)
  {
  }

  lemma ActFits(env: Env, s: System, id: CallId, ch: Choice)
    requires Sound(s) && id in s.calls
    ensures Fits(s, id, Act(env, s.state.db, s.calls[id].pc, s.now, ch))
  {
    var pc := s.calls[id].pc;
    assert Knows(s.state, id, s.calls[id]);
    RegistrarsAsked(s, id);
    ActJustified(env, s.state, id, s.calls[id], s.now, ch);
    ActKnows(env, s.state, id, s.calls[id], s.now, ch);
    EffectOrigin(env, s.state.db, pc, s.now, ch);
  }

  lemma RegistrarsAsked(s: System, id: CallId)
    requires LogsSound(s) && id in s.calls && Knows(s.state, id, s.calls[id])
    ensures var pc := s.calls[id].pc;
            pc.ClearOld? || pc.DrawToken? || pc.StoreToken? ==> s.calls[id].request.Register?
  {
  }

  lemma LogsStay(s: System, id: CallId, a: Action)
    requires LogsSound(s) && Fits(s, id, a)
    ensures LogsSound(Moved(s, id, a))
  {
  }

  lemma MovedSound(s: System, id: CallId, a: Action)
    requires Sound(s) && Fits(s, id, a)
    ensures Sound(Moved(s, id, a)) && Guarantee(s.state, Moved(s, id, a).state, id)
  {
    var t := Moved(s, id, a);
    EffectSound(s.state, id, a.effect);
    LogsStay(s, id, a);
    forall c | c in t.calls ensures Knows(t.state, c, t.calls[c]) {
      if c != id { KnowledgeStays(s.state, t.state, id, c, s.calls[c]); }
    }
  }

  lemma AdvanceSound(env: Env, s: System, id: CallId, ch: Choice)
    requires Sound(s) && id in s.calls
    ensures Sound(Do(env, s, Advance(id, ch))) && Guarantee(s.state, Do(env, s, Advance(id, ch)).state, id)
  {
    ActFits(env, s, id, ch);
    MovedSound(s, id, Act(env, s.state.db, s.calls[id].pc, s.now, ch));
  }

  /** Time passing, a call arriving or an unanswered call stopping: the tables rest. */
  ghost predicate AtRest(s: System, t: System) {
    && t.state == s.state && s.now <= t.now
    && (forall c :: c in s.calls ==>
          && c in t.calls
          && (t.calls[c] == s.calls[c] || (!s.calls[c].pc.Done? && t.calls[c] == s.calls[c].(pc := Stopped))))
    && (forall c :: c in t.calls && c !in s.calls ==> t.calls[c].pc == Entry(t.calls[c].request))
  }

  lemma StepRests(env: Env, s: System, step: Step)
    requires !step.Advance?
    ensures AtRest(s, Do(env, s, step))
  {
  }

  lemma RestSound(s: System, t: System)
    requires Sound(s) && AtRest(s, t)
    ensures Sound(t)
  {
    assert LogsSound(t);
  }

  /** No step of any request, failing or not, breaks the invariant. */
  lemma StepSound(env: Env, s: System, step: Step)
    requires Sound(s)
    ensures Sound(Do(env, s, step))
  {
    if step.Advance? {
      if step.id in s.calls { AdvanceSound(env, s, step.id, step.choice); }
    } else {
      StepRests(env, s, step);
      RestSound(s, Do(env, s, step));
    }
  }

  lemma {:induction false} RunSound(env: Env, s: System, steps: seq<Step>)
    requires Sound(s)
    ensures Sound(Run(env, s, steps))
    decreases |steps|
  {
    if steps != [] {
      StepSound(env, s, steps[0]);
      RunSound(env, Do(env, s, steps[0]), steps[1..]);
    }
  }
}
