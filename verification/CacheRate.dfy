/**
  How often upstream is asked under one key, over interleaved runs: at most once per time to
  live, exactly as long as no call is about to ask while another one under the key is, too,
  or has an answer that it has yet to store.
 */
module CacheRate {
  import opened Prelude
  import opened Entities
  import opened CacheKeys
  import opened CacheMachine
  import opened CacheCoherence

  /** When upstream answered requests under this key with data. */
  ghost function KeyTimes(env: Env, fetches: seq<Fetch>, key: string): seq<nat> {
    if fetches == [] then []
    else
      var n := |fetches| - 1;
      KeyTimes(env, fetches[..n], key)
      + (if KeyOf(env.sha256, fetches[n].request) == key then [fetches[n].at] else [])
  }

  ghost predicate Spaced(times: seq<nat>, gap: nat) {
    forall k :: 0 < k < |times| ==> times[k - 1] + gap <= times[k]
  }

  ghost predicate Under(env: Env, s: System, id: CallId, key: string) {
    id in s.calls && KeyOf(env.sha256, s.calls[id].request) == key
  }

  /**
    The cache works for this key at this step: it neither fails a call under the key nor
    loses or spoils a visible entry, and can store what upstream answers.
   */
  ghost predicate Works(env: Env, s: System, step: Step, key: string) {
    match step
    case Evict(k) => k == key ==> Get(s.store, key, s.now).None?
    case Corrupt(k, _) => k == key ==> Get(s.store, key, s.now).None?
    case Advance(id, ch) => Under(env, s, id, key) ==> AdvanceWorks(env, s.calls[id], ch)
    case _ => true
  }

  /** What upstream's answer to the request amounts to, if it is data. */
  ghost function Value(r: Request, ch: Choice): Option<Payload> {
    if ch.reply.None? then None else Interpret(r, ch.reply.value)
  }

  ghost predicate AdvanceWorks(env: Env, call: Call, ch: Choice) {
    match call.pc
    case Fetching => Value(call.request, ch).Some? ==> env.encode(Value(call.request, ch).value).Some?
    case Answered(_) => true
    case _ => !ch.fails
  }

  ghost predicate WorksAt(env: Env, steps: seq<Step>, k: nat, key: string)
    requires k < |steps|
  {
    Works(env, Run(env, START, steps[..k]), steps[k], key)
  }

  ghost predicate CacheWorks(env: Env, steps: seq<Step>, key: string) {
    forall k :: 0 <= k < |steps| ==> WorksAt(env, steps, k, key)
  }

  /** The call is about to ask upstream. */
  ghost predicate Asking(env: Env, s: System, id: CallId, key: string) {
    Under(env, s, id, key) && s.calls[id].pc.Fetching?
  }

  /** The call was answered by upstream less than a time to live ago and has yet to store that. */
  ghost predicate Pending(env: Env, s: System, id: CallId, key: string, kind: Kind) {
    Under(env, s, id, key) && s.calls[id].pc.Storing? && s.now < s.calls[id].pc.fetchedAt + Ttl(kind)
  }

  /** One call is about to ask upstream next to another that is, too, or that has yet to store its answer. */
  ghost predicate Risky(env: Env, s: System, key: string, kind: Kind) {
    exists a, b :: a != b && Asking(env, s, a, key) && (Asking(env, s, b, key) || Pending(env, s, b, key, kind))
  }

  // ---- The invariant ----

  /** The store holds an entry for the key, stored no earlier, that answers until it expires. */
  ghost predicate Held(env: Env, s: System, key: string, kind: Kind, since: nat) {
    && key in s.store && s.store[key].ttl == Ttl(kind) && since <= s.store[key].storedAt
    && env.decode(kind, s.store[key].bytes).Some?
  }

  ghost predicate Waiting(env: Env, s: System, key: string, at: nat) {
    exists id :: Under(env, s, id, key) && s.calls[id].pc.Storing? && s.calls[id].pc.fetchedAt == at
  }

  ghost predicate Over(s: System, kind: Kind, t: nat) { t + Ttl(kind) <= s.now }

  /** An answer is a time to live old, or held by the store, or on its way there. */
  ghost predicate Covered(env: Env, s: System, key: string, kind: Kind, t: nat) {
    t <= s.now && (Over(s, kind, t) || Held(env, s, key, kind, t) || Waiting(env, s, key, t))
  }

  /** The calls under the key have one kind, and what they are to store can be read back. */
  ghost predicate OneKind(env: Env, s: System, key: string, kind: Kind) {
    forall id :: Under(env, s, id, key) ==> CallOfKind(env, s.calls[id], kind)
  }

  ghost predicate CallOfKind(env: Env, call: Call, kind: Kind) {
    && KindOf(call.request) == kind
    && (call.pc.Storing? ==> OfKind(call.pc.value, kind) && env.encode(call.pc.value).Some?)
  }

  ghost predicate AllCovered(env: Env, s: System, times: seq<nat>, key: string, kind: Kind) {
    forall t :: t in times ==> Covered(env, s, key, kind, t)
  }

  ghost predicate AllOver(s: System, times: seq<nat>, kind: Kind) {
    forall t :: t in times ==> Over(s, kind, t)
  }

  ghost predicate Guarded(env: Env, s: System, times: seq<nat>, key: string, kind: Kind) {
    && OneKind(env, s, key, kind)
    && AllCovered(env, s, times, key, kind)
    && (forall id :: Asking(env, s, id, key) ==> AllOver(s, times, kind))
  }

  /** The calls under the key are the same ones, but for the arrival of new ones. */
  ghost predicate SameCalls(env: Env, s: System, t: System, key: string, kind: Kind) {
    && (forall id :: Under(env, s, id, key) ==> Under(env, t, id, key) && t.calls[id] == s.calls[id])
    && (forall id :: Under(env, t, id, key) && !Under(env, s, id, key) ==>
          t.calls[id].pc.Looking? && KindOf(t.calls[id].request) == kind)
  }

  /** Steps that concern no call under the key, and arrivals. */
  lemma RestGuarded(env: Env, s: System, t: System, times: seq<nat>, key: string, kind: Kind)
    requires Guarded(env, s, times, key, kind) && SameCalls(env, s, t, key, kind) && s.now <= t.now
    requires Get(s.store, key, s.now).None? || (key in t.store && t.store[key] == s.store[key])
    ensures Guarded(env, t, times, key, kind)
  {
    forall u | u in times ensures Covered(env, t, key, kind, u) {
      assert Covered(env, s, key, kind, u);
    }
    forall id | Asking(env, t, id, key) ensures AllOver(t, times, kind) {
      assert Asking(env, s, id, key);
    }
  }

  /** From s to t, time stands still and only this call moves, under its request. */
  ghost predicate OnlyMoves(s: System, t: System, id: CallId) {
    && s.now == t.now && t.calls.Keys == s.calls.Keys && id in s.calls
    && t.calls[id].request == s.calls[id].request
    && forall c :: c in s.calls && c != id ==> t.calls[c] == s.calls[c]
  }

  lemma AdvanceMoves(env: Env, s: System, id: CallId, ch: Choice)
    requires id in s.calls
    ensures OnlyMoves(s, Do(env, s, Advance(id, ch)), id)
  {
  }

  lemma MoveKeepsKind(env: Env, s: System, t: System, id: CallId, key: string, kind: Kind)
    requires OneKind(env, s, key, kind) && OnlyMoves(s, t, id) && CallOfKind(env, t.calls[id], kind)
    ensures OneKind(env, t, key, kind)
  {
  }

  /** An answer that waits for another call to store it still does. */
  lemma OthersWait(env: Env, s: System, t: System, id: CallId, key: string, u: nat)
    requires OnlyMoves(s, t, id) && !s.calls[id].pc.Storing? && Waiting(env, s, key, u)
    ensures Waiting(env, t, key, u)
  {
  }

  /** A miss means that every answer is over or waits to be stored, and, without risk, that it is over. */
  lemma MissMeansOver(env: Env, s: System, t: System, id: CallId, times: seq<nat>, key: string, kind: Kind)
    requires Guarded(env, s, times, key, kind) && OnlyMoves(s, t, id) && !s.calls[id].pc.Storing?
    requires Asking(env, t, id, key) && !Risky(env, t, key, kind)
    requires forall u: nat :: Held(env, s, key, kind, u) ==> Over(s, kind, u)
    ensures AllOver(t, times, kind)
  {
    forall u | u in times ensures Over(t, kind, u) {
      assert Covered(env, s, key, kind, u);
      if Waiting(env, s, key, u) {
        var b :| Under(env, s, b, key) && s.calls[b].pc.Storing? && s.calls[b].pc.fetchedAt == u;
        assert Under(env, t, b, key);
        assert !Pending(env, t, b, key, kind);
      }
    }
  }

  /** A call that looks while an answer is held is answered by it. */
  lemma LookGuarded(env: Env, s: System, id: CallId, ch: Choice, times: seq<nat>, key: string, kind: Kind)
    requires Guarded(env, s, times, key, kind) && Under(env, s, id, key) && s.calls[id].pc.Looking? && !ch.fails
    requires !Risky(env, Do(env, s, Advance(id, ch)), key, kind)
    ensures Guarded(env, Do(env, s, Advance(id, ch)), times, key, kind)
  {
    var t := Do(env, s, Advance(id, ch));
    assert CallOfKind(env, s.calls[id], kind);
    AdvanceMoves(env, s, id, ch);
    MoveKeepsKind(env, s, t, id, key, kind);
    if Asking(env, t, id, key) { MissMeansOver(env, s, t, id, times, key, kind); }
    forall u | u in times ensures Covered(env, t, key, kind, u) {
      assert Covered(env, s, key, kind, u);
      if Waiting(env, s, key, u) { OthersWait(env, s, t, id, key, u); }
    }
    forall c | Asking(env, t, c, key) ensures AllOver(t, times, kind) {
      if c != id { assert Asking(env, s, c, key); }
    }
  }

  /** Without risk only one call asks at a time. */
  lemma OnlyAsker(env: Env, s: System, t: System, id: CallId, key: string, kind: Kind, c: CallId)
    requires Asking(env, s, id, key) && !Risky(env, s, key, kind) && OnlyMoves(s, t, id) && !t.calls[id].pc.Fetching?
    ensures !Asking(env, t, c, key)
  {
    if c != id && Asking(env, t, c, key) { assert Asking(env, s, c, key); }
  }

  lemma FetchMoves(env: Env, s: System, id: CallId, ch: Choice)
    requires id in s.calls && s.calls[id].pc.Fetching?
    ensures var t := Do(env, s, Advance(id, ch)); var v := Value(s.calls[id].request, ch);
            OnlyMoves(s, t, id) && t.calls[id].pc == if v.Some? then Storing(v.value, s.now) else Answered(Failed)
  {
  }

  /** The one call that asks upstream does so a time to live after every earlier answer. */
  lemma FetchGuarded(env: Env, s: System, id: CallId, ch: Choice, times: seq<nat>, key: string, kind: Kind)
    requires Guarded(env, s, times, key, kind) && Asking(env, s, id, key) && !Risky(env, s, key, kind)
    requires AdvanceWorks(env, s.calls[id], ch)
    ensures AllOver(s, times, kind)
    ensures Guarded(env, Do(env, s, Advance(id, ch)),
                    times + (if Value(s.calls[id].request, ch).Some? then [s.now] else []), key, kind)
  {
    var t := Do(env, s, Advance(id, ch));
    var v := Value(s.calls[id].request, ch);
    assert CallOfKind(env, s.calls[id], kind);
    if v.Some? { InterpretedKind(s.calls[id].request, ch.reply.value); }
    FetchMoves(env, s, id, ch);
    MoveKeepsKind(env, s, t, id, key, kind);
    assert v.Some? ==> Under(env, t, id, key) && Waiting(env, t, key, s.now);
    assert forall u :: u in times ==> Over(s, kind, u) && Over(t, kind, u);
    forall c | Asking(env, t, c, key) ensures false { OnlyAsker(env, s, t, id, key, kind, c); }
  }

  /** Once stored, an answer is held. */
  lemma StoreGuarded(env: Env, s: System, id: CallId, ch: Choice, times: seq<nat>, key: string, kind: Kind)
    requires Lawful(env) && Guarded(env, s, times, key, kind)
    requires Under(env, s, id, key) && s.calls[id].pc.Storing? && !ch.fails
    ensures Guarded(env, Do(env, s, Advance(id, ch)), times, key, kind)
  {
    var t := Do(env, s, Advance(id, ch));
    assert CallOfKind(env, s.calls[id], kind);
    AdvanceMoves(env, s, id, ch);
    MoveKeepsKind(env, s, t, id, key, kind);
    forall u | u in times ensures Covered(env, t, key, kind, u) {
      assert Covered(env, s, key, kind, u);
      assert Held(env, t, key, kind, u);
    }
    forall c | Asking(env, t, c, key) ensures AllOver(t, times, kind) {
      assert Asking(env, s, c, key);
    }
  }

  /** A call under another key does nothing under this one. */
  lemma ElsewhereSame(env: Env, s: System, id: CallId, ch: Choice, key: string, kind: Kind)
    requires id in s.calls && !Under(env, s, id, key)
    ensures var t := Do(env, s, Advance(id, ch));
            SameCalls(env, s, t, key, kind) && (key in s.store ==> key in t.store && t.store[key] == s.store[key])
  {
    AdvanceMoves(env, s, id, ch);
    if key in s.store { ElsewhereKeepsEntry(env, s, id, ch, key); }
  }

  lemma ElsewhereKeepsEntry(env: Env, s: System, id: CallId, ch: Choice, key: string)
    requires id in s.calls && !Under(env, s, id, key) && key in s.store
    ensures var t := Do(env, s, Advance(id, ch)); key in t.store && t.store[key] == s.store[key]
  {
  }

  lemma ElsewhereGuarded(env: Env, s: System, id: CallId, ch: Choice, times: seq<nat>, key: string, kind: Kind)
    requires Guarded(env, s, times, key, kind) && id in s.calls && !Under(env, s, id, key)
    ensures Guarded(env, Do(env, s, Advance(id, ch)), times, key, kind)
  {
    AdvanceMoves(env, s, id, ch);
    ElsewhereSame(env, s, id, ch, key, kind);
    RestGuarded(env, s, Do(env, s, Advance(id, ch)), times, key, kind);
  }

  /** What a call's step adds to the answers under the key. */
  lemma AdvanceTimes(env: Env, s: System, id: CallId, ch: Choice, key: string)
    requires id in s.calls
    ensures KeyTimes(env, Do(env, s, Advance(id, ch)).fetches, key) ==
              KeyTimes(env, s.fetches, key)
              + (if Asking(env, s, id, key) && Value(s.calls[id].request, ch).Some? then [s.now] else [])
  {
  }

  lemma SpacedSnoc(times: seq<nat>, gap: nat, t: nat)
    requires Spaced(times, gap) && forall u :: u in times ==> u + gap <= t
    ensures Spaced(times + [t], gap)
  {
    forall k | 0 < k < |times + [t]| ensures (times + [t])[k - 1] + gap <= (times + [t])[k] {
      assert times[k - 1] in times;
    }
  }

  /** What holds of the requests under r's key while the cache works and they are not at risk. */
  ghost predicate InvariantFor(env: Env, s: System, r: Request) {
    var times := KeyTimes(env, s.fetches, KeyOf(env.sha256, r));
    Guarded(env, s, times, KeyOf(env.sha256, r), KindOf(r)) && Spaced(times, Ttl(KindOf(r)))
  }

  lemma AdvanceInvariant(env: Env, s: System, id: CallId, ch: Choice, r: Request)
    requires var key := KeyOf(env.sha256, r);
             && Lawful(env) && InvariantFor(env, s, r) && id in s.calls && Works(env, s, Advance(id, ch), key)
             && !Risky(env, s, key, KindOf(r)) && !Risky(env, Do(env, s, Advance(id, ch)), key, KindOf(r))
    ensures InvariantFor(env, Do(env, s, Advance(id, ch)), r)
  {
    var key, kind := KeyOf(env.sha256, r), KindOf(r);
    var times := KeyTimes(env, s.fetches, key);
    AdvanceTimes(env, s, id, ch, key);
    if !Under(env, s, id, key) {
      ElsewhereGuarded(env, s, id, ch, times, key, kind);
    } else {
      match s.calls[id].pc
      case Looking => LookGuarded(env, s, id, ch, times, key, kind);
      case Fetching =>
        FetchGuarded(env, s, id, ch, times, key, kind);
        SpacedSnoc(times, Ttl(kind), s.now);
      case Storing(_, _) => StoreGuarded(env, s, id, ch, times, key, kind);
      case Answered(_) => assert Do(env, s, Advance(id, ch)) == s;
    }
  }

  lemma ArriveCalls(env: Env, s: System, id: CallId, q: Request, key: string, kind: Kind)
    requires KeyOf(env.sha256, q) == key ==> KindOf(q) == kind
    ensures SameCalls(env, s, Do(env, s, Arrive(id, q)), key, kind)
  {
  }

  lemma ArriveInvariant(env: Env, s: System, id: CallId, q: Request, r: Request)
    requires InvariantFor(env, s, r)
    ensures InvariantFor(env, Do(env, s, Arrive(id, q)), r)
  {
    var key, t := KeyOf(env.sha256, r), Do(env, s, Arrive(id, q));
    if KeyOf(env.sha256, q) == key { KindsAreDisjoint(env.sha256, q, r); }
    ArriveCalls(env, s, id, q, key, KindOf(r));
    RestGuarded(env, s, t, KeyTimes(env, s.fetches, key), key, KindOf(r));
  }

  lemma StepInvariant(env: Env, s: System, step: Step, r: Request)
    requires var key := KeyOf(env.sha256, r);
             && Lawful(env) && InvariantFor(env, s, r) && Works(env, s, step, key)
             && !Risky(env, s, key, KindOf(r)) && !Risky(env, Do(env, s, step), key, KindOf(r))
    ensures InvariantFor(env, Do(env, s, step), r)
  {
    match step
    case Advance(id, ch) => if id in s.calls { AdvanceInvariant(env, s, id, ch, r); }
    case Arrive(id, q) => ArriveInvariant(env, s, id, q, r);
    case _ =>
      var key := KeyOf(env.sha256, r);
      RestGuarded(env, s, Do(env, s, step), KeyTimes(env, s.fetches, key), key, KindOf(r));
  }

  // ---- Whole runs ----

  ghost predicate RiskyAt(env: Env, steps: seq<Step>, k: nat, key: string, kind: Kind)
    requires k <= |steps|
  {
    Risky(env, Run(env, START, steps[..k]), key, kind)
  }

  /** At no point of the run is the key at risk. */
  ghost predicate NeverRisky(env: Env, steps: seq<Step>, key: string, kind: Kind) {
    forall k :: 0 <= k <= |steps| ==> !RiskyAt(env, steps, k, key, kind)
  }

  ghost predicate InvariantAt(env: Env, steps: seq<Step>, n: nat, r: Request)
    requires n <= |steps|
  {
    InvariantFor(env, Run(env, START, steps[..n]), r)
  }

  lemma StartInvariant(env: Env, steps: seq<Step>, r: Request)
    ensures InvariantAt(env, steps, 0, r)
  {
    assert steps[..0] == [];
  }

  lemma NextInvariant(env: Env, steps: seq<Step>, n: nat, r: Request)
    requires Lawful(env) && n < |steps| && WorksAt(env, steps, n, KeyOf(env.sha256, r))
    requires !RiskyAt(env, steps, n, KeyOf(env.sha256, r), KindOf(r))
    requires !RiskyAt(env, steps, n + 1, KeyOf(env.sha256, r), KindOf(r))
    requires InvariantAt(env, steps, n, r)
    ensures InvariantAt(env, steps, n + 1, r)
  {
    RunNext(env, START, steps, n);
    StepInvariant(env, Run(env, START, steps[..n]), steps[n], r);
  }

  lemma {:induction false} RunInvariant(env: Env, steps: seq<Step>, n: nat, r: Request)
    requires Lawful(env) && n <= |steps|
    requires CacheWorks(env, steps, KeyOf(env.sha256, r)) && NeverRisky(env, steps, KeyOf(env.sha256, r), KindOf(r))
    ensures InvariantAt(env, steps, n, r)
  {
    if n == 0 {
      StartInvariant(env, steps, r);
    } else {
      RunInvariant(env, steps, n - 1, r);
      assert WorksAt(env, steps, n - 1, KeyOf(env.sha256, r));
      assert !RiskyAt(env, steps, n - 1, KeyOf(env.sha256, r), KindOf(r));
      assert !RiskyAt(env, steps, n, KeyOf(env.sha256, r), KindOf(r));
      NextInvariant(env, steps, n - 1, r);
    }
  }

  lemma {:induction false} SpacedApart(times: seq<nat>, gap: nat, i: nat, j: nat)
    requires Spaced(times, gap) && i <= j < |times|
    ensures times[i] + gap * (j - i) <= times[j]
    decreases j
  {
    if i < j {
      SpacedApart(times, gap, i, j - 1);
      assert gap * (j - i) == gap * (j - 1 - i) + gap;
    }
  }

  /** No window of this length holds more than n of the times. */
  ghost predicate AtMost(times: seq<nat>, window: nat, n: int) {
    forall i, j :: 0 <= i <= j < |times| && times[j] <= times[i] + window ==> j - i + 1 <= n
  }

  lemma CountInWindow(times: seq<nat>, kind: Kind, window: nat)
    requires Spaced(times, Ttl(kind))
    ensures AtMost(times, window, window / Ttl(kind) + 1)
  {
    forall i, j | 0 <= i <= j < |times| && times[j] <= times[i] + window ensures j - i <= window / Ttl(kind) {
      SpacedApart(times, Ttl(kind), i, j);
      var n := j - i;
      match kind
      case TideKind => assert 6 * HOUR * n <= window;
      case SearchKind => assert 24 * HOUR * n <= window;
      case _ => assert 30 * MINUTE * n <= window;
    }
  }

  /**
    While the cache works for the key of r and the key is never at risk, whatever happens under
    other keys, the upstream answers under the key are a time to live apart, and a window of
    length T holds at most T / ttl + 1 of them.
   */
  lemma RateBound(env: Env, steps: seq<Step>, r: Request, window: nat)
    requires Lawful(env)
    requires CacheWorks(env, steps, KeyOf(env.sha256, r)) && NeverRisky(env, steps, KeyOf(env.sha256, r), KindOf(r))
    ensures var times := KeyTimes(env, Run(env, START, steps).fetches, KeyOf(env.sha256, r));
            var ttl: nat := match r case Tide(_, _, _) => 6 * HOUR case Search(_, _) => 24 * HOUR case _ => 30 * MINUTE;
            Spaced(times, ttl) && AtMost(times, window, window / ttl + 1)
  {
    RunInvariant(env, steps, |steps|, r);
    assert steps[..|steps|] == steps;
    var times := KeyTimes(env, Run(env, START, steps).fetches, KeyOf(env.sha256, r));
    CountInWindow(times, KindOf(r), window);
  }

  // ---- No weaker condition would do ----

  /** Upstream answers, right now, some of the calls under the key that stand before it. */
  ghost predicate Answers(env: Env, s: System, more: seq<Step>, key: string)
    decreases |more|
  {
    more == [] ||
    (more[0].Advance? && Asking(env, s, more[0].id, key) && Answers(env, Do(env, s, more[0]), more[1..], key))
  }

  /** Whatever upstream answers now, the answers under the key are a time to live apart. */
  ghost predicate StaysSpaced(env: Env, s: System, key: string, kind: Kind) {
    forall more :: Answers(env, s, more, key) ==> Spaced(KeyTimes(env, Run(env, s, more).fetches, key), Ttl(kind))
  }

  lemma SafeStaysSpaced(env: Env, s: System, r: Request, more: seq<Step>)
    requires var key := KeyOf(env.sha256, r);
             InvariantFor(env, s, r) && !Risky(env, s, key, KindOf(r)) && Answers(env, s, more, key)
    ensures Spaced(KeyTimes(env, Run(env, s, more).fetches, KeyOf(env.sha256, r)), Ttl(KindOf(r)))
  {
    var key := KeyOf(env.sha256, r);
    if more != [] {
      var id, t := more[0].id, Do(env, s, more[0]);
      AdvanceTimes(env, s, id, more[0].choice, key);
      SpacedSnoc(KeyTimes(env, s.fetches, key), Ttl(KindOf(r)), s.now);
      FetchMoves(env, s, id, more[0].choice);
      if more[1..] != [] { OnlyAsker(env, s, t, id, key, KindOf(r), more[1..][0].id); }
    }
  }

  lemma {:induction false} SpacedPair(times: seq<nat>, gap: nat, i: nat, j: nat)
    requires Spaced(times, gap) && i < j < |times|
    ensures times[i] + gap <= times[j]
    decreases j
  {
    if i < j - 1 { SpacedPair(times, gap, i, j - 1); }
  }

  lemma TooEarly(times: seq<nat>, gap: nat, t: nat, now: nat)
    requires t in times && now < t + gap
    ensures !Spaced(times + [now], gap)
  {
    var i :| 0 <= i < |times| && times[i] == t;
    if Spaced(times + [now], gap) { SpacedPair(times + [now], gap, i, |times|); }
  }

  lemma {:induction false} KeyTimesHas(env: Env, fetches: seq<Fetch>, key: string, k: nat)
    requires k < |fetches| && KeyOf(env.sha256, fetches[k].request) == key
    ensures fetches[k].at in KeyTimes(env, fetches, key)
    decreases |fetches|
  {
    if k < |fetches| - 1 { KeyTimesHas(env, fetches[..|fetches| - 1], key, k); }
  }

  /** An answer with data, to any request. */
  ghost function Data(r: Request): (ch: Choice)
    ensures Value(r, ch).Some?
  {
    Choice(false, Some(match r
                       case Tide(_, _, _) => TideReply(TideData("", "", [], [], ""))
                       case Current(_, _) => WeatherReply(WeatherData(0.0, 0.0, 0.0, 0, 0.0, 0, "", 0))
                       case Forecast(_, _) => ForecastReply([])
                       case Search(_, _) => GeoReply([])))
  }

  /** One answer breaks the spacing while another waits to be stored. */
  lemma PendingBreaks(env: Env, s: System, key: string, kind: Kind, a: CallId, b: CallId)
    requires CacheCoherence.Sound(env, s) && Asking(env, s, a, key) && Pending(env, s, b, key, kind)
    ensures !StaysSpaced(env, s, key, kind)
  {
    var r, q := s.calls[a].request, s.calls[b];
    var more := [Advance(a, Data(r))];
    assert CallSound(env, s, b, q);
    var k :| 0 <= k < |s.fetches| && s.fetches[k].call == b && s.fetches[k].request == q.request
      && s.fetches[k].value == q.pc.value && s.fetches[k].at == q.pc.fetchedAt
      && Interpret(q.request, s.fetches[k].reply) == Some(q.pc.value);
    KeyTimesHas(env, s.fetches, key, k);
    AdvanceTimes(env, s, a, Data(r), key);
    TooEarly(KeyTimes(env, s.fetches, key), Ttl(kind), q.pc.fetchedAt, s.now);
    assert more[1..] == [];
    assert Answers(env, s, more, key);
    assert Run(env, s, more) == Do(env, s, more[0]);
  }

  lemma AnswerBoth(env: Env, s: System, one: Step, two: Step, key: string)
    requires one.Advance? && Asking(env, s, one.id, key) && two.Advance? && Asking(env, Do(env, s, one), two.id, key)
    ensures Answers(env, s, [one, two], key) && Run(env, s, [one, two]) == Do(env, Do(env, s, one), two)
  {
    var t := Do(env, s, one);
    assert [one, two][1..] == [two] && [two][1..] == [];
    assert Answers(env, Do(env, t, two), [], key);
    assert Answers(env, t, [two], key);
    assert Run(env, t, [two]) == Run(env, Do(env, t, two), []);
  }

  /** So do two answers at once. */
  lemma TwoAnswersBreak(env: Env, s: System, key: string, kind: Kind, a: CallId, b: CallId)
    requires a != b && Asking(env, s, a, key) && Asking(env, s, b, key)
    ensures !StaysSpaced(env, s, key, kind)
  {
    var ch, ch' := Data(s.calls[a].request), Data(s.calls[b].request);
    var t := Do(env, s, Advance(a, ch));
    FetchMoves(env, s, a, ch);
    AdvanceTimes(env, s, a, ch, key);
    AdvanceTimes(env, t, b, ch', key);
    AnswerBoth(env, s, Advance(a, ch), Advance(b, ch'), key);
    TooEarly(KeyTimes(env, t.fetches, key), Ttl(kind), s.now, s.now);
  }

  lemma RiskBreaks(env: Env, s: System, key: string, kind: Kind)
    requires CacheCoherence.Sound(env, s) && Risky(env, s, key, kind)
    ensures !StaysSpaced(env, s, key, kind)
  {
    var a, b :| a != b && Asking(env, s, a, key) && (Asking(env, s, b, key) || Pending(env, s, b, key, kind));
    if Asking(env, s, b, key) {
      TwoAnswersBreak(env, s, key, kind, a, b);
    } else {
      PendingBreaks(env, s, key, kind, a, b);
    }
  }

  lemma NoRiskNoBreak(env: Env, s: System, r: Request)
    requires InvariantFor(env, s, r) && !Risky(env, s, KeyOf(env.sha256, r), KindOf(r))
    ensures StaysSpaced(env, s, KeyOf(env.sha256, r), KindOf(r))
  {
    forall more | Answers(env, s, more, KeyOf(env.sha256, r))
      ensures Spaced(KeyTimes(env, Run(env, s, more).fetches, KeyOf(env.sha256, r)), Ttl(KindOf(r)))
    {
      SafeStaysSpaced(env, s, r, more);
    }
  }

  /**
    The condition is exact: while the cache works, the key is never at risk if and only if at
    every point of the run any answers upstream may give keep the spacing.
   */
  lemma SpacedIffNeverRisky(env: Env, steps: seq<Step>, r: Request)
    requires Lawful(env) && CacheWorks(env, steps, KeyOf(env.sha256, r))
    ensures NeverRisky(env, steps, KeyOf(env.sha256, r), KindOf(r))
            <==> forall k :: 0 <= k <= |steps| ==>
                   StaysSpaced(env, Run(env, START, steps[..k]), KeyOf(env.sha256, r), KindOf(r))
  {
    var key, kind := KeyOf(env.sha256, r), KindOf(r);
    forall k | 0 <= k <= |steps| && RiskyAt(env, steps, k, key, kind)
      ensures !StaysSpaced(env, Run(env, START, steps[..k]), key, kind)
    {
      RunSound(env, START, steps[..k]);
      RiskBreaks(env, Run(env, START, steps[..k]), key, kind);
    }
    if NeverRisky(env, steps, key, kind) {
      forall k | 0 <= k <= |steps| ensures StaysSpaced(env, Run(env, START, steps[..k]), key, kind) {
        RunInvariant(env, steps, k, r);
        assert !RiskyAt(env, steps, k, key, kind);
        NoRiskNoBreak(env, Run(env, START, steps[..k]), r);
      }
    }
  }

  ghost function Overlap(r: Request, ask: Choice): seq<Step> {
    [Arrive(0, r), Arrive(1, r), Advance(0, ask), Advance(1, ask), Advance(0, ask), Advance(1, ask)]
  }

  /** Two overlapping calls for one request that look before either asks both ask, at the same instant. */
  lemma OverlappingCallsBothFetch(env: Env, r: Request, reply: Reply)
    requires Valid(r) && Interpret(r, reply).Some?
    ensures var s := Run(env, START, Overlap(r, Choice(false, Some(reply))));
            && |s.fetches| == 2 && s.fetches[0].call == 0 && s.fetches[1].call == 1
            && s.fetches[0].request == s.fetches[1].request == r && s.fetches[0].at == s.fetches[1].at
  {
    var steps := Overlap(r, Choice(false, Some(reply)));
    assert steps[..0] == [];
    RunNext(env, START, steps, 0);
    RunNext(env, START, steps, 1);
    RunNext(env, START, steps, 2);
    RunNext(env, START, steps, 3);
    assert Run(env, START, steps[..4]) == System(0, map[], map[0 := Call(r, Fetching), 1 := Call(r, Fetching)], []);
    RunNext(env, START, steps, 4);
    RunNext(env, START, steps, 5);
    assert steps[..6] == steps;
  }
}
