/** Favorites are conserved: what the calls were answered adds up to what the table holds. */
module FavoriteCount {
  import opened Prelude
  import opened AccountTables
  import opened AccountMachine
  import opened AccountInvariant
  import opened AccountRely

  ghost predicate Added(call: Call, f: Favorite) {
    call.request.AddFavorite? && Subject(call.request) == Some(f) && call.pc == Done(Success)
  }

  ghost predicate Removed(call: Call, f: Favorite) {
    call.request.DeleteFavorite? && Subject(call.request) == Some(f) && call.pc == Done(Success)
  }

  /** The Add calls for f that were answered with success. */
  ghost function Adds(s: System, f: Favorite): set<CallId> {
    set c | c in s.calls && Added(s.calls[c], f)
  }

  ghost function Removes(s: System, f: Favorite): set<CallId> {
    set c | c in s.calls && Removed(s.calls[c], f)
  }

  ghost predicate Counted(s: System, f: Favorite) {
    s.state.hist.added[f] == |Adds(s, f)| && s.state.hist.removed[f] == |Removes(s, f)|
  }

  /** A step is answered with success for f exactly when it inserts or deletes f. */
  lemma AnswerIsEffect(env: Env, s: State, c: CallId, call: Call, now: nat, ch: Choice, f: Favorite)
    requires Knows(s, c, call) && !call.pc.Done?
    ensures var a := Act(env, s.db, call.pc, now, ch); var next := call.(pc := a.pc);
            && (Added(next, f) <==> a.effect == CreateFavorite(f))
            && (Removed(next, f) <==> a.effect == DropFavorite(f))
  {
  }

  lemma AnsweredIsIdle(env: Env, s: System, id: CallId, ch: Choice)
    requires id in s.calls && s.calls[id].pc.Done?
    ensures Do(env, s, Advance(id, ch)) == s
  {
  }

  lemma HistoryCounts(h: History, c: CallId, e: Effect, f: Favorite)
    ensures ApplyHistory(h, c, e).added[f] == h.added[f] + if e == CreateFavorite(f) then 1 else 0
    ensures ApplyHistory(h, c, e).removed[f] == h.removed[f] + if e == DropFavorite(f) then 1 else 0
  {
  }

  lemma CountAfter(a: set<CallId>, b: set<CallId>, id: CallId, joins: bool)
    requires id !in a && forall c :: c in b <==> c in a || (joins && c == id)
    ensures |b| == |a| + if joins then 1 else 0
  {
    assert b == a + if joins then {id} else {};
  }

  /** One unanswered call moves on: the counts follow its answer. */
  lemma AddsAfter(s: System, t: System, id: CallId, next: Call, f: Favorite)
    requires id in s.calls && !s.calls[id].pc.Done? && t.calls == s.calls[id := next]
    ensures |Adds(t, f)| == |Adds(s, f)| + if Added(next, f) then 1 else 0
  {
    CountAfter(Adds(s, f), Adds(t, f), id, Added(next, f));
  }

  lemma RemovesAfter(s: System, t: System, id: CallId, next: Call, f: Favorite)
    requires id in s.calls && !s.calls[id].pc.Done? && t.calls == s.calls[id := next]
    ensures |Removes(t, f)| == |Removes(s, f)| + if Removed(next, f) then 1 else 0
  {
    CountAfter(Removes(s, f), Removes(t, f), id, Removed(next, f));
  }

  lemma CountedOnAdvance(env: Env, s: System, id: CallId, ch: Choice, f: Favorite)
    requires Sound(s) && Counted(s, f) && id in s.calls
    ensures Counted(Do(env, s, Advance(id, ch)), f)
  {
    var t := Do(env, s, Advance(id, ch));
    if s.calls[id].pc.Done? {
      AnsweredIsIdle(env, s, id, ch);
    } else {
      var a := Act(env, s.state.db, s.calls[id].pc, s.now, ch);
      var next := s.calls[id].(pc := a.pc);
      AddsAfter(s, t, id, next, f);
      RemovesAfter(s, t, id, next, f);
      AnswerIsEffect(env, s.state, id, s.calls[id], s.now, ch, f);
      HistoryCounts(s.state.hist, id, a.effect, f);
    }
  }

  lemma CountedAtRest(s: System, t: System, f: Favorite)
    requires Counted(s, f) && AtRest(s, t)
    ensures Counted(t, f)
  {
    assert Adds(t, f) == Adds(s, f);
    assert Removes(t, f) == Removes(s, f);
  }

  lemma CountedOnStep(env: Env, s: System, step: Step, f: Favorite)
    requires Sound(s) && Counted(s, f)
    ensures Counted(Do(env, s, step), f)
  {
    if step.Advance? {
      if step.id in s.calls { CountedOnAdvance(env, s, step.id, step.choice, f); }
    } else {
      StepRests(env, s, step);
      CountedAtRest(s, Do(env, s, step), f);
    }
  }

  lemma {:induction false} CountedOnRun(env: Env, s: System, steps: seq<Step>, f: Favorite)
    requires Sound(s) && Counted(s, f)
    ensures Counted(Run(env, s, steps), f)
    decreases |steps|
  {
    if steps != [] {
      StepSound(env, s, steps[0]);
      CountedOnStep(env, s, steps[0], f);
      CountedOnRun(env, Do(env, s, steps[0]), steps[1..], f);
    }
  }

  /**
    Whatever interleaves, successful Adds less successful Deletes of a favorite is 0 or 1,
    and is 1 exactly while the table holds its row.
   */
  lemma FavoritesConserved(env: Env, steps: seq<Step>, f: Favorite)
    ensures var s := Run(env, START, steps);
            |Adds(s, f)| == |Removes(s, f)| + if f in s.state.db.favorites then 1 else 0
  {
    StartSound();
    assert Adds(START, f) == {} && Removes(START, f) == {};
    CountedOnRun(env, START, steps, f);
    RunSound(env, START, steps);
  }
}
