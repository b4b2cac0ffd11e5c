/** Cache coherence over whole runs: every value served is an upstream answer to such a request, fresh or not yet expired. */
module CacheCoherence {
  import opened Prelude
  import opened Rounding
  import opened CacheKeys
  import opened CacheMachine
  import MapsClient

  /** An upstream answer behind a value, given to a request with this key. */
  ghost predicate From(env: Env, f: Fetch, key: string, v: Payload, until: nat) {
    && KeyOf(env.sha256, f.request) == key && f.value == v && f.at <= until
    && Valid(f.request) && Interpret(f.request, f.reply) == Some(v)
  }

  ghost predicate Fetched(env: Env, s: System, key: string, v: Payload, until: nat) {
    exists k :: 0 <= k < |s.fetches| && From(env, s.fetches[k], key, v, until)
  }

  /** The call's own upstream answer. */
  ghost predicate FetchedBy(s: System, id: CallId, r: Request, v: Payload, at: nat) {
    exists k :: 0 <= k < |s.fetches| && s.fetches[k].call == id && s.fetches[k].request == r
      && s.fetches[k].value == v && s.fetches[k].at == at && Interpret(r, s.fetches[k].reply) == Some(v)
  }

  /** An entry is garbage to everyone, or encodes an upstream answer fetched before it was stored. */
  ghost predicate EntrySound(env: Env, s: System, key: string, e: Entry) {
    || Undecodable(env, e.bytes)
    || exists v, kind :: EntryOf(env, s, key, e, v, kind)
  }

  ghost predicate EntryOf(env: Env, s: System, key: string, e: Entry, v: Payload, kind: Kind) {
    && env.encode(v) == Some(e.bytes) && Fetched(env, s, key, v, e.storedAt)
    && OfKind(v, kind) && e.ttl == Ttl(kind) && e.storedAt <= s.now
  }

  ghost predicate AnswerSound(env: Env, s: System, id: CallId, r: Request, a: Answer) {
    match a
    case Failed => true
    case Served(v, at, Fresh(fetchedAt)) => FetchedBy(s, id, r, v, fetchedAt) && fetchedAt <= at <= s.now
    case Served(v, at, Hit(storedAt)) =>
      Fetched(env, s, KeyOf(env.sha256, r), v, storedAt) && storedAt <= at < storedAt + Ttl(KindOf(r)) && at <= s.now
  }

  ghost predicate CallSound(env: Env, s: System, id: CallId, call: Call) {
    && Valid(call.request)
    && match call.pc
       case Looking => true
       case Fetching => true
       case Storing(v, fetchedAt) => FetchedBy(s, id, call.request, v, fetchedAt) && fetchedAt <= s.now
       case Answered(a) => AnswerSound(env, s, id, call.request, a)
  }

  ghost predicate StoreSound(env: Env, s: System) {
    forall key :: key in s.store ==> EntrySound(env, s, key, s.store[key])
  }

  ghost predicate Sound(env: Env, s: System) {
    StoreSound(env, s) && forall id :: id in s.calls ==> CallSound(env, s, id, s.calls[id])
  }

  // ---- Growth ----

  ghost predicate Grows(s: System, t: System) {
    s.fetches <= t.fetches && s.now <= t.now
  }

  lemma FetchesStay(env: Env, s: System, t: System)
    requires Grows(s, t)
    ensures forall key, v, until :: Fetched(env, s, key, v, until) ==> Fetched(env, t, key, v, until)
    ensures forall id, r, v, at :: FetchedBy(s, id, r, v, at) ==> FetchedBy(t, id, r, v, at)
  {
  }

  lemma EntryStays(env: Env, s: System, t: System, key: string, e: Entry)
    requires Grows(s, t) && EntrySound(env, s, key, e)
    ensures EntrySound(env, t, key, e)
  {
    FetchesStay(env, s, t);
    if !Undecodable(env, e.bytes) {
      var v, kind :| EntryOf(env, s, key, e, v, kind);
      assert EntryOf(env, t, key, e, v, kind);
    }
  }

  lemma CallStays(env: Env, s: System, t: System, id: CallId, call: Call)
    requires Grows(s, t) && CallSound(env, s, id, call)
    ensures CallSound(env, t, id, call)
  {
  }

  /** Everything but the acting call and the new entries stays sound. */
  lemma RestStays(env: Env, s: System, t: System, id: CallId)
    requires Sound(env, s) && Grows(s, t)
    requires forall c :: c in t.calls ==> c == id || (c in s.calls && t.calls[c] == s.calls[c])
    requires id in t.calls ==> CallSound(env, t, id, t.calls[id])
    requires forall key :: key in t.store ==>
               (key in s.store && t.store[key] == s.store[key]) || EntrySound(env, t, key, t.store[key])
    ensures Sound(env, t)
  {
    forall key | key in t.store ensures EntrySound(env, t, key, t.store[key]) {
      if key in s.store && t.store[key] == s.store[key] { EntryStays(env, s, t, key, t.store[key]); }
    }
    forall c | c in t.calls ensures CallSound(env, t, c, t.calls[c]) {
      if c != id { CallStays(env, s, t, c, t.calls[c]); }
    }
  }

  // ---- Steps ----

  /** Interpreted replies have the request's kind. */
  lemma InterpretedKind(r: Request, reply: Reply)
    requires Interpret(r, reply).Some?
    ensures OfKind(Interpret(r, reply).value, KindOf(r))
  {
  }

  /**
    A hit decodes the bytes of an upstream answer to a request with the same key; keys of
    different kinds are disjoint, so it is decoded as what it was encoded from.
   */
  lemma HitIsUpstream(env: Env, s: System, id: CallId, r: Request, fails: bool)
    requires Lawful(env) && Sound(env, s) && Valid(r)
    requires Look(env, s.store, r, s.now, fails).Some?
    ensures AnswerSound(env, s, id, r, Look(env, s.store, r, s.now, fails).value)
  {
    var key := KeyOf(env.sha256, r);
    var e := s.store[key];
    assert EntrySound(env, s, key, e);
    assert env.decode(KindOf(r), e.bytes).Some?;
    var v, kind :| EntryOf(env, s, key, e, v, kind);
    var k :| 0 <= k < |s.fetches| && From(env, s.fetches[k], key, v, e.storedAt);
    var f := s.fetches[k];
    KindsAreDisjoint(env.sha256, f.request, r);
    InterpretedKind(f.request, f.reply);
    assert kind == KindOf(r);
    assert env.decode(KindOf(r), e.bytes) == Some(v);
  }

  lemma LookingSound(env: Env, s: System, id: CallId, ch: Choice)
    requires Lawful(env) && Sound(env, s) && id in s.calls && s.calls[id].pc.Looking?
    ensures Sound(env, Act(env, s, id, s.calls[id], ch))
  {
    var r := s.calls[id].request;
    assert CallSound(env, s, id, s.calls[id]);
    var t := Act(env, s, id, s.calls[id], ch);
    if Look(env, s.store, r, s.now, ch.fails).Some? {
      HitIsUpstream(env, s, id, r, ch.fails);
      CallStays(env, s, t, id, t.calls[id]);
    }
    RestStays(env, s, t, id);
  }

  lemma FetchingSound(env: Env, s: System, id: CallId, ch: Choice)
    requires Sound(env, s) && id in s.calls && s.calls[id].pc.Fetching?
    ensures Sound(env, Act(env, s, id, s.calls[id], ch))
  {
    var t := Act(env, s, id, s.calls[id], ch);
    assert CallSound(env, s, id, s.calls[id]);
    if t.calls[id].pc.Storing? {
      assert t.fetches[|s.fetches|].call == id;
      assert FetchedBy(t, id, t.calls[id].request, t.calls[id].pc.value, s.now);
    }
    RestStays(env, s, t, id);
  }

  lemma StoringSound(env: Env, s: System, id: CallId, ch: Choice)
    requires Sound(env, s) && id in s.calls && s.calls[id].pc.Storing?
    ensures Sound(env, Act(env, s, id, s.calls[id], ch))
  {
    var t := Act(env, s, id, s.calls[id], ch);
    var r, v, at := s.calls[id].request, s.calls[id].pc.value, s.calls[id].pc.fetchedAt;
    assert CallSound(env, s, id, s.calls[id]);
    FetchesStay(env, s, t);
    var k :| 0 <= k < |s.fetches| && s.fetches[k].call == id && s.fetches[k].request == r
      && s.fetches[k].value == v && s.fetches[k].at == at && Interpret(r, s.fetches[k].reply) == Some(v);
    var key := KeyOf(env.sha256, r);
    assert From(env, t.fetches[k], key, v, s.now);
    InterpretedKind(r, s.fetches[k].reply);
    if !ch.fails && env.encode(v).Some? {
      assert EntryOf(env, t, key, t.store[key], v, KindOf(r));
    }
    RestStays(env, s, t, id);
  }

  lemma StepSound(env: Env, s: System, step: Step)
    requires Lawful(env) && Sound(env, s)
    ensures Sound(env, Do(env, s, step))
  {
    match step
    case Advance(id, ch) =>
      if id in s.calls {
        match s.calls[id].pc
        case Looking => LookingSound(env, s, id, ch);
        case Fetching => FetchingSound(env, s, id, ch);
        case Storing(_, _) => StoringSound(env, s, id, ch);
        case Answered(_) =>
      }
    case Tick(_) => RestStays(env, s, Do(env, s, step), 0);
    case Arrive(id, _) => if id !in s.calls { RestStays(env, s, Do(env, s, step), id); }
    case Evict(_) => RestStays(env, s, Do(env, s, step), 0);
    case Corrupt(_, _) => RestStays(env, s, Do(env, s, step), 0);
  }

  lemma {:induction false} RunSound(env: Env, s: System, steps: seq<Step>)
    requires Lawful(env) && Sound(env, s)
    ensures Sound(env, Run(env, s, steps))
    decreases |steps|
  {
    if steps != [] {
      StepSound(env, s, steps[0]);
      RunSound(env, Do(env, s, steps[0]), steps[1..]);
    }
  }

  // ---- What callers get ----

  /**
    Behind every value served, on a hit or not, stands an upstream answer to a request that
    shares the entry, asked for by this very call or stored less than its time to live ago.
   */
  ghost predicate Backed(env: Env, s: System, id: CallId, r: Request, v: Payload, at: nat, source: Source, f: Fetch) {
    && f in s.fetches && SameEntry(env.sha256, r, f.request)
    && Interpret(f.request, f.reply) == Some(v)
    && match source
       case Fresh(fetchedAt) => f.call == id && f.request == r && f.at == fetchedAt <= at
       case Hit(storedAt) => f.at <= storedAt <= at < storedAt + Ttl(KindOf(r))
  }

  lemma ServedIsUpstream(env: Env, steps: seq<Step>, id: CallId, v: Payload, at: nat, source: Source)
    requires Lawful(env)
    requires var s := Run(env, START, steps); id in s.calls && s.calls[id].pc == Answered(Served(v, at, source))
    ensures var s := Run(env, START, steps);
            exists f :: Backed(env, s, id, s.calls[id].request, v, at, source, f)
  {
    RunSound(env, START, steps);
    var s := Run(env, START, steps);
    var r := s.calls[id].request;
    assert CallSound(env, s, id, s.calls[id]);
    match source
    case Fresh(fetchedAt) =>
      var k :| 0 <= k < |s.fetches| && s.fetches[k].call == id && s.fetches[k].request == r
        && s.fetches[k].value == v && s.fetches[k].at == fetchedAt && Interpret(r, s.fetches[k].reply) == Some(v);
      KeysEqualIff(env.sha256, r, r);
      assert Backed(env, s, id, r, v, at, source, s.fetches[k]);
    case Hit(storedAt) =>
      var k :| 0 <= k < |s.fetches| && From(env, s.fetches[k], KeyOf(env.sha256, r), v, storedAt);
      KeysEqualIff(env.sha256, r, s.fetches[k].request);
      assert Backed(env, s, id, r, v, at, source, s.fetches[k]);
  }

  /** Upstream's answer is of the kind that was asked for. */
  ghost predicate InShape(r: Request, reply: Reply) {
    match r
    case Tide(_, _, _) => reply.TideReply?
    case Current(_, _) => reply.WeatherReply?
    case Forecast(_, _) => reply.ForecastReply?
    case Search(_, _) => reply.GeoReply?
  }

  /** Step k of the run is this call's request to upstream, answered with an error or with data of the wrong shape. */
  ghost predicate UpstreamFails(env: Env, steps: seq<Step>, k: nat, id: CallId) {
    && k < |steps| && steps[k].Advance? && steps[k].id == id
    && var s := Run(env, START, steps[..k]);
       && id in s.calls && s.calls[id].pc.Fetching?
       && (steps[k].choice.reply.Some? ==> !InShape(s.calls[id].request, steps[k].choice.reply.value))
  }

  ghost predicate HasFailed(s: System, id: CallId) {
    id in s.calls && s.calls[id].pc == Answered(Failed)
  }

  /** A call fails at the step at which upstream fails it, and stays failed. */
  lemma FailureOrigin(env: Env, steps: seq<Step>, k: nat, id: CallId)
    requires k < |steps|
    ensures HasFailed(Run(env, START, steps[..k + 1]), id)
            <==> HasFailed(Run(env, START, steps[..k]), id) || UpstreamFails(env, steps, k, id)
  {
    RunNext(env, START, steps, k);
  }

  lemma {:induction false} FailuresUpTo(env: Env, steps: seq<Step>, n: nat, id: CallId)
    requires n <= |steps|
    ensures HasFailed(Run(env, START, steps[..n]), id) <==> exists k: nat :: k < n && UpstreamFails(env, steps, k, id)
  {
    if n > 0 {
      FailureOrigin(env, steps, n - 1, id);
      FailuresUpTo(env, steps, n - 1, id);
    } else {
      assert steps[..0] == [];
    }
  }

  /** A call is answered with an error exactly if upstream answered it with one: no cache failure surfaces. */
  lemma FailsIffUpstreamFails(env: Env, steps: seq<Step>, id: CallId)
    ensures HasFailed(Run(env, START, steps), id) <==> exists k: nat :: UpstreamFails(env, steps, k, id)
  {
    FailuresUpTo(env, steps, |steps|, id);
    assert steps[..|steps|] == steps;
  }

  /**
    Tide data is upstream's for exactly this prefecture, port and date, fetched by this call
    or stored less than six hours ago.
   */
  lemma TideIsExact(env: Env, steps: seq<Step>, id: CallId, v: Payload, at: nat, source: Source)
    requires Lawful(env)
    requires var s := Run(env, START, steps);
             id in s.calls && s.calls[id].request.Tide? && s.calls[id].pc == Answered(Served(v, at, source))
    ensures var s := Run(env, START, steps);
            exists f :: f in s.fetches && f.request == s.calls[id].request && f.reply.TideReply?
              && v == TidePayload(f.reply.tide)
              && match source case Fresh(_) => f.call == id case Hit(storedAt) => f.at <= storedAt && at < storedAt + 6 * HOUR
  {
    ServedIsUpstream(env, steps, id, v, at, source);
    var s := Run(env, START, steps);
    var f :| Backed(env, s, id, s.calls[id].request, v, at, source, f);
    assert f.request == s.calls[id].request;
  }

  /**
    Weather served for (lat, lon) was fetched for coordinates within 0.0001 degrees each
    way, by this call or stored less than half an hour ago.
   */
  lemma WeatherIsNear(env: Env, steps: seq<Step>, id: CallId, v: Payload, at: nat, source: Source)
    requires Lawful(env)
    requires var s := Run(env, START, steps);
             && id in s.calls && (s.calls[id].request.Current? || s.calls[id].request.Forecast?)
             && s.calls[id].pc == Answered(Served(v, at, source))
    ensures var s := Run(env, START, steps); var r := s.calls[id].request;
            exists f :: f in s.fetches
              && (r.Current? ==> f.request.Current? && f.reply.WeatherReply? && v == WeatherPayload(f.reply.weather))
              && (r.Forecast? ==> f.request.Forecast? && f.reply.ForecastReply? && v == ForecastPayload(f.reply.list))
              && Abs(f.request.lat - r.lat) <= 0.0001 && Abs(f.request.lon - r.lon) <= 0.0001
              && match source
                 case Fresh(_) => f.call == id && f.request == r
                 case Hit(storedAt) => f.at <= storedAt && at < storedAt + 30 * MINUTE
  {
    ServedIsUpstream(env, steps, id, v, at, source);
    var s := Run(env, START, steps);
    var r := s.calls[id].request;
    var f :| Backed(env, s, id, r, v, at, source, f);
    SameCellWithin(f.request.lat, r.lat);
    SameCellWithin(f.request.lon, r.lon);
  }

  /**
    A search is answered with the first limit results, in order, of an upstream answer, its own
    or stored less than a day ago, to this query unless two queries have the same digest; the bound on the
    length does not need that.
   */
  lemma SearchIsPrefix(env: Env, steps: seq<Step>, id: CallId, v: Payload, at: nat, source: Source)
    requires Lawful(env)
    requires var s := Run(env, START, steps);
             id in s.calls && s.calls[id].request.Search? && s.calls[id].pc == Answered(Served(v, at, source))
    ensures var s := Run(env, START, steps); var r := s.calls[id].request;
            && v.PlacesPayload? && |v.places| <= r.limit
            && exists f :: f in s.fetches && f.request.Search? && f.reply.GeoReply?
                 && env.sha256(f.request.query) == env.sha256(r.query)
                 && |v.places| <= |f.reply.raw| && (|v.places| < r.limit ==> |v.places| == |f.reply.raw|)
                 && (match source
                     case Fresh(_) => f.call == id && f.request == r
                     case Hit(storedAt) => f.at <= storedAt && at < storedAt + 24 * HOUR)
                 && forall k :: 0 <= k < |v.places| ==>
                      && v.places[k].name == f.reply.raw[k].formattedAddress
                      && v.places[k].latitude == f.reply.raw[k].lat
                      && v.places[k].longitude == f.reply.raw[k].lng
                      && MapsClient.NamesPrefecture(f.reply.raw[k].components, v.places[k].prefecture)
  {
    RunSound(env, START, steps);
    ServedIsUpstream(env, steps, id, v, at, source);
    var s := Run(env, START, steps);
    var r := s.calls[id].request;
    assert CallSound(env, s, id, s.calls[id]);
    var f :| Backed(env, s, id, r, v, at, source, f);
    assert v == PlacesPayload(MapsClient.Places(f.reply.raw, r.limit));
    MapsClient.PlacesInFull(f.reply.raw, r.limit);
  }

  // ---- Upstream is asked only when needed ----

  /** A call that has not asked upstream, or got nothing from it. */
  ghost predicate Unserved(s: System, id: CallId) {
    id in s.calls ==>
      match s.calls[id].pc
      case Looking => true
      case Fetching => true
      case Storing(_, _) => false
      case Answered(Served(_, _, Fresh(_))) => false
      case Answered(_) => true
  }

  ghost predicate Absent(s: System, id: CallId) {
    forall k :: 0 <= k < |s.fetches| ==> s.fetches[k].call != id
  }

  ghost predicate Thrifty(s: System) {
    && (forall id :: Unserved(s, id) ==> Absent(s, id))
    && (forall j, k :: 0 <= j < k < |s.fetches| ==> s.fetches[j].call != s.fetches[k].call)
  }

  lemma StepThrifty(env: Env, s: System, step: Step)
    requires Thrifty(s)
    ensures Thrifty(Do(env, s, step))
  {
    var t := Do(env, s, step);
    forall id | Unserved(t, id) ensures Absent(t, id) {
      assert Unserved(s, id);
    }
    if step.Advance? && step.id in s.calls && s.calls[step.id].pc.Fetching? {
      assert Unserved(s, step.id);
    }
  }

  lemma {:induction false} RunThrifty(env: Env, s: System, steps: seq<Step>)
    requires Thrifty(s)
    ensures Thrifty(Run(env, s, steps))
    decreases |steps|
  {
    if steps != [] {
      StepThrifty(env, s, steps[0]);
      RunThrifty(env, Do(env, s, steps[0]), steps[1..]);
    }
  }

  /** No call asks upstream twice, and a call answered from the cache has not asked at all. */
  lemma HitsAskNobody(env: Env, steps: seq<Step>, id: CallId)
    requires id in Run(env, START, steps).calls
    ensures var s := Run(env, START, steps);
            && (s.calls[id].pc.Answered? && s.calls[id].pc.answer.Served? && s.calls[id].pc.answer.source.Hit? ==>
                  forall k :: 0 <= k < |s.fetches| ==> s.fetches[k].call != id)
            && forall j, k :: 0 <= j < k < |s.fetches| ==> s.fetches[j].call != s.fetches[k].call
  {
    RunThrifty(env, START, steps);
    var s := Run(env, START, steps);
    if Unserved(s, id) { assert Absent(s, id); }
  }
}
